/** The JSON-RPC envelope shared by every message (jsonrpc::Message): the
    version tag and the id, following sections 4 and 4.1 of JSON-RPC 2.0. */
module Messages {
  import opened Wrappers
  import opened QJson
  import Exceptions

  const JSONRPC_VERSION: string := "2.0"

  /** Why building a message failed: either a bare C string was thrown (the
      envelope checks do this) or a member of the exception hierarchy. */
  datatype Failure = Thrown(text: string) | Raised(exc: Exceptions.Exc)

  /** The text both envelope checks throw. */
  const INVALID_MESSAGE: string := "Invalid message"

  /** A message holds its id and nothing else; it is immutable once built. */
  datatype Message = Message(id: Json)

  /** The `jsonrpc` member is exactly the string "2.0". */
  predicate VersionValid(obj: Object) {
    "jsonrpc" in obj && obj["jsonrpc"] == JString(JSONRPC_VERSION)
  }

  /** An id may be absent, null, a string or a number. */
  predicate IdShapeValid(id: Json) {
    !(id.JBool? || id.JArray? || id.JObject?)
  }

  /** Message(const QJsonObject&): the version check, then the id check; both
      reject with the same thrown text. */
  function Parse(obj: Object): (r: Result<Message, Failure>)
    ensures r.Success? <==> VersionValid(obj) && IdShapeValid(Value(obj, "id"))
    ensures r.Success? ==> r.value.id == Value(obj, "id")
    ensures r.Failure? ==> r.error == Thrown(INVALID_MESSAGE)
  {
    if Value(obj, "jsonrpc") != JString(JSONRPC_VERSION) then
      Failure(Thrown(INVALID_MESSAGE))
    else
      var id := Value(obj, "id");
      if !(id.JUndefined? || id.JNull? || id.JString? || id.JNumber?) then
        Failure(Thrown(INVALID_MESSAGE))
      else
        Success(Message(id))
  }

  /** getId */
  function GetId(m: Message): (id: Json)
    ensures id == m.id
  {
    m.id
  }

  /** hasId: the id is neither undefined nor null. */
  function HasId(m: Message): (b: bool)
    ensures b ==> GetId(m) != JUndefined && GetId(m) != JNull
    ensures !b ==> GetId(m) == JUndefined || GetId(m) == JNull
  {
    !(m.id.JUndefined? || m.id.JNull?)
  }

  /** Message(): the id stays at QJsonValue's default, null. */
  function Default(): (m: Message)
    ensures !HasId(m) && GetId(m) == JNull
  {
    Message(JNull)
  }

  /** Message(const QJsonValue& id) as written: the argument is ignored and the
      id stays null. */
  function FromIdAsWritten(id: Json): (m: Message)
    ensures m == Default()
    ensures !HasId(m)
  {
    Message(JNull)
  }

  /** Message(const QJsonValue& id) as evidently intended: the given id is kept. */
  function FromId(id: Json): (m: Message)
    ensures GetId(m) == id
    ensures HasId(m) <==> !(id.JUndefined? || id.JNull?)
  {
    Message(id)
  }

  /** As written, a message built with id 1 reports no id. */
  lemma FromIdAsWrittenDropsId()
    ensures HasId(FromId(JNumber(1)))
    ensures !HasId(FromIdAsWritten(JNumber(1)))
    ensures GetId(FromIdAsWritten(JNumber(1))) != JNumber(1)
  {
  }

  /** A bad version tag is rejected whatever the id: a missing member, the
      number 2 and every other string alike. */
  lemma VersionRequired(obj: Object)
    requires !VersionValid(obj)
    ensures Parse(obj) == Failure(Thrown(INVALID_MESSAGE))
  {
  }

  /** With a valid version tag, the id decides: absent, null, string or number
      succeed; bool, array and object fail. */
  lemma IdShapeDecides(obj: Object)
    requires VersionValid(obj)
    ensures Parse(obj).Success? <==>
              match Value(obj, "id")
              case JUndefined | JNull | JString(_) | JNumber(_) => true
              case JBool(_) | JArray(_) | JObject(_) => false
  {
  }

  /** The two checks are indistinguishable to callers: a message with a bad
      version and a bad id fails exactly as one with only a bad id does. */
  lemma ChecksIndistinguishable(obj1: Object, obj2: Object)
    requires !VersionValid(obj1)
    requires VersionValid(obj2) && !IdShapeValid(Value(obj2, "id"))
    ensures Parse(obj1) == Parse(obj2)
  {
  }

  /** On a parsed message hasId holds exactly when the id is a string or a
      number; an absent id reads back as undefined. */
  lemma ParsedHasId(obj: Object)
    requires Parse(obj).Success?
    ensures HasId(Parse(obj).value) <==> Value(obj, "id").JString? || Value(obj, "id").JNumber?
    ensures "id" !in obj ==> GetId(Parse(obj).value) == JUndefined && !HasId(Parse(obj).value)
  {
  }
}
