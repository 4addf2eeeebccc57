/** A JSON-RPC request (jsonrpc::Request): the envelope plus a method name and
    positional arguments, following section 4.2 of JSON-RPC 2.0 without the
    by-name form. */
module Requests {
  import opened Wrappers
  import opened QJson
  import opened Messages
  import Exceptions

  const METHOD_NOT_STRING: string := "the method is no string."
  const PARAMS_INVALID: string := "params seems to be invalid."

  /** A Request is a Message (its base part) plus exactly two fields. */
  datatype Request = Request(base: Message, methodName: string, arguments: seq<Json>)

  /** getMethodName */
  function GetMethodName(r: Request): (name: string)
    ensures name == r.methodName
  {
    r.methodName
  }

  /** getArguments */
  function GetArguments(r: Request): (args: seq<Json>)
    ensures args == r.arguments
  {
    r.arguments
  }

  /** The positional arguments a `params` member stands for: an array's
      elements, none for an absent member, and no reading at all for an object
      (by-name passing is unsupported) or any other type. */
  function ParamsArguments(params: Json): (args: Option<seq<Json>>)
    ensures args.Some? <==> params.JArray? || params.JUndefined?
    ensures params.JArray? ==> args == Some(params.elements)
    ensures params.JUndefined? ==> args == Some([])
  {
    match params
    case JArray(elements) => Some(elements)
    case JUndefined => Some([])
    case _ => None
  }

  /** buildArguments: appends the arguments `params` stands for to `arguments`
      one element at a time and reports whether `params` was acceptable; on
      rejection nothing is appended. */
  method BuildArguments(arguments: seq<Json>, params: Json) returns (ok: bool, arguments': seq<Json>)
    ensures ok <==> ParamsArguments(params).Some?
    ensures ok ==> arguments' == arguments + ParamsArguments(params).value
    ensures !ok ==> arguments' == arguments
  {
    arguments' := arguments;
    match params {
      case JArray(elements) =>
        var i := 0;
        while i < |elements|
          invariant 0 <= i <= |elements|
          invariant arguments' == arguments + elements[..i]
        {
          arguments' := arguments' + [elements[i]];
          i := i + 1;
        }
        assert elements[..i] == elements;
        ok := true;
      case JUndefined =>
        ok := true;
      case JObject(_) =>
        ok := false;
      case _ =>
        ok := false;
    }
  }

  /** Request(const QJsonObject&): the envelope checks first, then `method` must
      be a string, then `params` must give the arguments. */
  function Parse(obj: Object): (r: Result<Request, Failure>)
    ensures r.Success? <==>
              Messages.Parse(obj).Success? && Value(obj, "method").JString?
              && ParamsArguments(Value(obj, "params")).Some?
    ensures r.Success? ==> r.value.base == Messages.Parse(obj).value
    ensures r.Success? ==> r.value.methodName == Value(obj, "method").s
    ensures r.Success? ==> r.value.arguments == ParamsArguments(Value(obj, "params")).value
  {
    var base :- Messages.Parse(obj);
    var name := Value(obj, "method");
    if !name.JString? then
      Failure(Raised(Exceptions.InvalidRequest(METHOD_NOT_STRING)))
    else
      var args := ParamsArguments(Value(obj, "params"));
      if args.None? then
        Failure(Raised(Exceptions.InvalidRequest(PARAMS_INVALID)))
      else
        Success(Request(base, name.s, args.value))
  }

  /** The constructor itself, running buildArguments on an initially empty
      argument list. */
  method FromJson(obj: Object) returns (r: Result<Request, Failure>)
    ensures r == Parse(obj)
  {
    var base := Messages.Parse(obj);
    if base.Failure? {
      return Failure(base.error);
    }
    var name := Value(obj, "method");
    if !name.JString? {
      return Failure(Raised(Exceptions.InvalidRequest(METHOD_NOT_STRING)));
    }
    var ok, arguments := BuildArguments([], Value(obj, "params"));
    if !ok {
      return Failure(Raised(Exceptions.InvalidRequest(PARAMS_INVALID)));
    }
    assert arguments == ParamsArguments(Value(obj, "params")).value;
    r := Success(Request(base.value, name.s, arguments));
  }

  /** Request(methodName, arguments): an id-less request. */
  function New(methodName: string, arguments: seq<Json>): (r: Request)
    ensures GetMethodName(r) == methodName && GetArguments(r) == arguments
    ensures !HasId(r.base)
  {
    Request(Default(), methodName, arguments)
  }

  /** Request(id, methodName, arguments) as written: the base constructor
      Message(id) drops the id (see Messages.FromIdAsWritten). */
  function NewWithIdAsWritten(id: Json, methodName: string, arguments: seq<Json>): (r: Request)
    ensures GetMethodName(r) == methodName && GetArguments(r) == arguments
    ensures r.base == Messages.Default() && !HasId(r.base)
  {
    Request(FromIdAsWritten(id), methodName, arguments)
  }

  /** As written, a request built with id 1 reports no id, and the corrected
      constructor keeps it. */
  lemma NewWithIdAsWrittenDropsId()
    ensures !HasId(NewWithIdAsWritten(JNumber(1), "m", []).base)
    ensures HasId(NewWithId(JNumber(1), "m", []).base)
  {
  }

  /** Request(id, methodName, arguments), with the id kept (see
      Messages.FromId). */
  function NewWithId(id: Json, methodName: string, arguments: seq<Json>): (r: Request)
    ensures GetMethodName(r) == methodName && GetArguments(r) == arguments
    ensures GetId(r.base) == id
  {
    Request(FromId(id), methodName, arguments)
  }

  /** toJson on top of the envelope object `envelope`: `method` is set to the
      method name; `params` is set to the arguments, in order, only when there
      are any, each stored as QJsonArray::append stores it (an undefined
      argument as null); every other member is the envelope's. */
  function Serialized(r: Request, envelope: Object): (obj: Object)
    ensures Value(obj, "method") == JString(r.methodName)
    ensures |r.arguments| != 0 ==> Value(obj, "params") == JArray(ArrayOf(r.arguments))
    ensures |r.arguments| == 0 ==> Value(obj, "params") == Value(envelope, "params")
    ensures forall k :: k != "method" && k != "params" ==> Value(obj, k) == Value(envelope, k)
  {
    var withMethod := Insert(envelope, "method", JString(r.methodName));
    if |r.arguments| != 0 then Insert(withMethod, "params", JArray(ArrayOf(r.arguments))) else withMethod
  }

  /** toJson, copying the arguments into a fresh array one by one before
      inserting it. */
  method ToJson(r: Request, envelope: Object) returns (obj: Object)
    ensures obj == Serialized(r, envelope)
  {
    obj := Insert(envelope, "method", JString(r.methodName));
    if |r.arguments| != 0 {
      var requestArguments: seq<Json> := [];
      for i := 0 to |r.arguments|
        invariant |requestArguments| == i
        invariant forall j :: 0 <= j < i ==> requestArguments[j] == ArrayElement(r.arguments[j])
      {
        requestArguments := Append(requestArguments, r.arguments[i]);
      }
      assert requestArguments == ArrayOf(r.arguments);
      obj := Insert(obj, "params", JArray(requestArguments));
    }
  }

  /** Every parsed request has passed the envelope checks. */
  lemma ParsedPassedEnvelope(obj: Object)
    requires Parse(obj).Success?
    ensures VersionValid(obj) && IdShapeValid(Value(obj, "id"))
    ensures GetId(Parse(obj).value.base) == Value(obj, "id")
  {
  }

  /** Any string is a method name, the empty one included: it is not rejected
      when parsing. */
  lemma EmptyMethodNameAccepted(obj: Object)
    requires Messages.Parse(obj).Success? && ParamsArguments(Value(obj, "params")).Some?
    requires Value(obj, "method") == JString("")
    ensures Parse(obj).Success? && GetMethodName(Parse(obj).value) == ""
  {
  }

  /** The failures, in the order the constructor detects them. */
  lemma ParseFailures(obj: Object)
    ensures Messages.Parse(obj).Failure? ==> Parse(obj) == Failure(Thrown(INVALID_MESSAGE))
    ensures Messages.Parse(obj).Success? && !Value(obj, "method").JString? ==>
              Parse(obj) == Failure(Raised(Exceptions.InvalidRequest(METHOD_NOT_STRING)))
    ensures Messages.Parse(obj).Success? && Value(obj, "method").JString?
            && !(Value(obj, "params").JArray? || Value(obj, "params").JUndefined?) ==>
              Parse(obj) == Failure(Raised(Exceptions.InvalidRequest(PARAMS_INVALID)))
  {
  }

  /** By-name parameters are always rejected, even `{}`, once the envelope and
      the method name are valid. */
  lemma NamedParamsRejected(obj: Object)
    requires Messages.Parse(obj).Success? && Value(obj, "method").JString?
    requires Value(obj, "params").JObject?
    ensures Parse(obj) == Failure(Raised(Exceptions.InvalidRequest(PARAMS_INVALID)))
  {
  }

  /** Array parameters become the arguments element by element; an absent
      `params` gives none. */
  lemma ParamsBecomeArguments(obj: Object)
    requires Parse(obj).Success?
    ensures Value(obj, "params").JArray? ==>
              |GetArguments(Parse(obj).value)| == |Value(obj, "params").elements|
              && forall i :: 0 <= i < |GetArguments(Parse(obj).value)| ==>
                   GetArguments(Parse(obj).value)[i] == Value(obj, "params").elements[i]
    ensures "params" !in obj ==> GetArguments(Parse(obj).value) == []
  {
  }

  /** Round trip: serialising a request over a valid envelope that carries no
      `params` of its own and parsing the result gives back the envelope's id,
      the method name and the arguments as the array stored them (an undefined
      argument comes back as null), the empty list included. */
  lemma RoundTrip(r: Request, envelope: Object)
    requires Messages.Parse(envelope).Success?
    requires "params" !in envelope
    ensures Parse(Serialized(r, envelope)) == Success(Request(Messages.Parse(envelope).value, r.methodName, ArrayOf(r.arguments)))
  {
  }

  /** The round trip at the level of the getters, for a request built by the
      constructor with an id, over an envelope carrying that same id: the id,
      the method name and the arguments come back, the arguments exactly when
      none of them is undefined. */
  lemma RoundTripGetters(id: Json, methodName: string, arguments: seq<Json>, envelope: Object)
    requires Messages.Parse(envelope).Success? && "params" !in envelope
    requires Value(envelope, "id") == id
    requires forall i :: 0 <= i < |arguments| ==> !arguments[i].JUndefined?
    ensures var r := NewWithId(id, methodName, arguments);
            Parse(Serialized(r, envelope)).Success?
            && GetId(Parse(Serialized(r, envelope)).value.base) == GetId(r.base)
            && GetMethodName(Parse(Serialized(r, envelope)).value) == methodName
            && GetArguments(Parse(Serialized(r, envelope)).value) == arguments
  {
    RoundTrip(NewWithId(id, methodName, arguments), envelope);
  }

  /** An undefined argument is serialised as null and parses back as null. */
  lemma UndefinedArgumentBecomesNull(envelope: Object)
    requires Messages.Parse(envelope).Success? && "params" !in envelope
    ensures Value(Serialized(New("m", [JUndefined]), envelope), "params") == JArray([JNull])
    ensures Parse(Serialized(New("m", [JUndefined]), envelope)).Success?
    ensures GetArguments(Parse(Serialized(New("m", [JUndefined]), envelope)).value) == [JNull]
  {
    RoundTrip(New("m", [JUndefined]), envelope);
  }
}
