/** The closed hierarchy of failures of the JSON-RPC server (jsonrpc::exceptions)
    and its projection onto JSON-RPC error objects. */
module Exceptions {
  import opened Wrappers
  import opened QJson
  import opened Errors

  /** What WrongArgumentType was told it received: a type name, or the JSON
      value itself whose type is then reported. */
  datatype Received = ReceivedType(typeName: string) | ReceivedValue(value: Json)

  /** One case per concrete class. Every case carries the text stored in the
      base class's `message` field; the remaining fields are the constructor
      arguments the header declares beyond that text. The header's default
      arguments are kept: an omitted reason is the empty text, and
      WrongArgumentCount may be built without a method name. */
  datatype Exc =
    | InvalidSignature(message: string)
    | UnknownMethodName(message: string, name: string)
    | WrongArgumentCount(message: string, expected: int, delivered: int, methodName: Option<string> := None)
    | WrongArgumentType(message: string, expectedType: string, received: Received, reason: string := "")
    | InvokationFailed(message: string)
    | ParseError(message: string := "")
    | InvalidMessage(message: string := "")
    | InvalidRequest(message: string := "")
    | InvalidResponse(message: string := "")
    | InvalidError(message: string := "")

  /** The classes of the hierarchy, the abstract root included. */
  datatype ExcClass =
    | JsonrpcExceptionClass
    | InvalidSignatureClass
    | UnknownMethodNameClass
    | WrongArgumentCountClass
    | WrongArgumentTypeClass
    | InvokationFailedClass
    | ParseErrorClass
    | InvalidMessageClass
    | InvalidRequestClass
    | InvalidResponseClass
    | InvalidErrorClass

  /** JsonrpcException declares raise and clone pure virtual: it has no instances. */
  predicate IsConcrete(c: ExcClass) {
    c != JsonrpcExceptionClass
  }

  /** The direct base class each class's declaration names. */
  function Parent(c: ExcClass): (p: Option<ExcClass>)
    ensures p.None? <==> c == JsonrpcExceptionClass
  {
    match c
    case JsonrpcExceptionClass => None
    case InvalidSignatureClass => Some(JsonrpcExceptionClass)
    case UnknownMethodNameClass => Some(InvalidSignatureClass)
    case WrongArgumentCountClass => Some(InvalidSignatureClass)
    case WrongArgumentTypeClass => Some(InvalidSignatureClass)
    case InvokationFailedClass => Some(JsonrpcExceptionClass)
    case ParseErrorClass => Some(JsonrpcExceptionClass)
    case InvalidMessageClass => Some(JsonrpcExceptionClass)
    case InvalidRequestClass => Some(InvalidMessageClass)
    case InvalidResponseClass => Some(InvalidMessageClass)
    case InvalidErrorClass => Some(InvalidMessageClass)
  }

  /** Distance from the root; it shrinks along every Parent step. */
  function Depth(c: ExcClass): nat {
    match c
    case JsonrpcExceptionClass => 0
    case InvalidSignatureClass | InvokationFailedClass | ParseErrorClass | InvalidMessageClass => 1
    case _ => 2
  }

  /** `c` is `ancestor` or derives from it, directly or indirectly. */
  predicate IsA(c: ExcClass, ancestor: ExcClass): (r: bool)
    ensures c == ancestor ==> r
    ensures ancestor == JsonrpcExceptionClass ==> r
    ensures r ==> Depth(ancestor) <= Depth(c)
    ensures r && Depth(ancestor) == Depth(c) ==> c == ancestor
    decreases Depth(c)
  {
    c == ancestor || (Parent(c).Some? && IsA(Parent(c).value, ancestor))
  }

  /** The dynamic (concrete) class of an exception value. */
  function ClassOf(e: Exc): (c: ExcClass)
    ensures IsConcrete(c)
    ensures IsA(c, JsonrpcExceptionClass)
  {
    match e
    case InvalidSignature(_) => InvalidSignatureClass
    case UnknownMethodName(_, _) => UnknownMethodNameClass
    case WrongArgumentCount(_, _, _, _) => WrongArgumentCountClass
    case WrongArgumentType(_, _, _, _) => WrongArgumentTypeClass
    case InvokationFailed(_) => InvokationFailedClass
    case ParseError(_) => ParseErrorClass
    case InvalidMessage(_) => InvalidMessageClass
    case InvalidRequest(_) => InvalidRequestClass
    case InvalidResponse(_) => InvalidResponseClass
    case InvalidError(_) => InvalidErrorClass
  }

  /** The JSON-RPC error kind each concrete class projects to. The bodies of
      generateError are not shown; this table is the model's definition,
      following section 5.1 of JSON-RPC 2.0. */
  function KindOf(c: ExcClass): (k: ErrorKind)
    requires IsConcrete(c)
    ensures IsA(c, InvalidMessageClass) ==> k == InvalidRequestKind
    ensures IsA(c, InvalidSignatureClass) ==> k == MethodNotFound || k == InvalidParams
    ensures k == MethodNotFound <==> c == UnknownMethodNameClass
    ensures k == ParseFailed <==> c == ParseErrorClass
    ensures k == InternalError <==> c == InvokationFailedClass
  {
    match c
    case InvalidSignatureClass => InvalidParams
    case UnknownMethodNameClass => MethodNotFound
    case WrongArgumentCountClass => InvalidParams
    case WrongArgumentTypeClass => InvalidParams
    case InvokationFailedClass => InternalError
    case ParseErrorClass => ParseFailed
    case InvalidMessageClass | InvalidRequestClass | InvalidResponseClass | InvalidErrorClass => InvalidRequestKind
  }

  /** JsonrpcException::getMessage: the stored text, unchanged. */
  function GetMessage(e: Exc): (m: string)
    ensures m == e.message
  {
    e.message
  }

  /** generateError(id): an error object for `id` whose code is fixed by the
      class alone and whose message is the stored text. */
  function GenerateError(e: Exc, id: Json): (r: Error)
    ensures r.id == id
    ensures r.message == GetMessage(e)
    ensures r.code == Code(KindOf(ClassOf(e)))
    ensures r.data.None?
  {
    Error(id, Code(KindOf(ClassOf(e))), e.message, None)
  }

  /** The classes that also declare the id-less generateError(). */
  predicate HasIdlessProjection(c: ExcClass) {
    c == ParseErrorClass || IsA(c, InvalidMessageClass)
  }

  /** generateError(): for failures detected before an id could be trusted; the
      error is addressed to id null. */
  function GenerateErrorWithoutId(e: Exc): (r: Error)
    requires HasIdlessProjection(ClassOf(e))
    ensures r == GenerateError(e, JNull)
    ensures r.code == PARSE_ERROR || r.code == INVALID_REQUEST
  {
    GenerateError(e, JNull)
  }

  /** clone(): a copy of the same concrete class with the same content. */
  function Clone(e: Exc): (r: Exc)
    ensures r == e
    ensures ClassOf(r) == ClassOf(e)
    ensures GetMessage(r) == GetMessage(e)
    ensures forall id :: GenerateError(r, id) == GenerateError(e, id)
  {
    e
  }

  /** Family membership, and the classes that derive from the root directly. */
  lemma FamilyMembership(e: Exc)
    ensures IsA(ClassOf(e), InvalidSignatureClass) <==>
              e.InvalidSignature? || e.UnknownMethodName? || e.WrongArgumentCount? || e.WrongArgumentType?
    ensures IsA(ClassOf(e), InvalidMessageClass) <==>
              e.InvalidMessage? || e.InvalidRequest? || e.InvalidResponse? || e.InvalidError?
    ensures Parent(ClassOf(e)) == Some(JsonrpcExceptionClass) <==>
              e.InvalidSignature? || e.InvokationFailed? || e.ParseError? || e.InvalidMessage?
  {
  }

  /** The hierarchy is a tree: every concrete class lies in exactly one of the
      four subtrees below the root. */
  lemma SubtreesPartition(c: ExcClass)
    requires IsConcrete(c)
    ensures (if IsA(c, InvalidSignatureClass) then 1 else 0)
          + (if IsA(c, InvokationFailedClass) then 1 else 0)
          + (if IsA(c, ParseErrorClass) then 1 else 0)
          + (if IsA(c, InvalidMessageClass) then 1 else 0) == 1
  {
  }

  /** The id-less projection exists exactly for ParseError and the
      InvalidMessage family. */
  lemma IdlessProjectionClasses(e: Exc)
    ensures HasIdlessProjection(ClassOf(e)) <==>
              e.ParseError? || e.InvalidMessage? || e.InvalidRequest? || e.InvalidResponse? || e.InvalidError?
  {
  }

  /** The projected code depends on the class alone: not on the message text,
      the other constructor arguments or the id. */
  lemma CodeDependsOnlyOnClass(e1: Exc, e2: Exc, id1: Json, id2: Json)
    requires ClassOf(e1) == ClassOf(e2)
    ensures GenerateError(e1, id1).code == GenerateError(e2, id2).code
  {
  }

  /** Every projected code is one of section 5.1's five, and it maps back to the
      kind of the exception's class. */
  lemma CodeIsStandard(e: Exc, id: Json)
    ensures GenerateError(e, id).code in {PARSE_ERROR, INVALID_REQUEST, METHOD_NOT_FOUND, INVALID_PARAMS, INTERNAL_ERROR}
    ensures KindOfCode(GenerateError(e, id).code) == Some(KindOf(ClassOf(e)))
  {
    CodeIsInjective(KindOf(ClassOf(e)));
  }

  /** The per-class code table, as section 5.1 of JSON-RPC 2.0 fixes it. */
  lemma CodeTable(e: Exc, id: Json)
    ensures e.ParseError? ==> GenerateError(e, id).code == -32700
    ensures IsA(ClassOf(e), InvalidMessageClass) ==> GenerateError(e, id).code == -32600
    ensures e.UnknownMethodName? ==> GenerateError(e, id).code == -32601
    ensures (e.InvalidSignature? || e.WrongArgumentCount? || e.WrongArgumentType?) ==> GenerateError(e, id).code == -32602
    ensures e.InvokationFailed? ==> GenerateError(e, id).code == -32603
  {
  }
}
