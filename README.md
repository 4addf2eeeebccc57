# JSON-RPC 2.0 message layer: a Dafny model

This project models the message-validation layer of a Qt JSON-RPC 2.0 server.
Validation turns an already-parsed JSON object into a `Message` (the envelope:
`jsonrpc` tag and `id`) or a `Request` (the envelope plus a method name and
positional arguments), or rejects it. Serialisation turns a `Request` back into
a JSON object. The model also covers the closed hierarchy of server exceptions
and how each one projects onto a JSON-RPC error object, with the codes of
section 5.1 of the JSON-RPC 2.0 specification.

Modules, leaves first:

- `Wrappers` (`wrappers.dfy`): `Option` and `Result`.
- `QJson` (`qjson.dfy`): the JSON value type, which has one case per
  `QJsonValue::Type`. `Value` is the member lookup that gives `JUndefined` for a
  missing key, like `QJsonObject::value`. `Insert` is `QJsonObject::insert`,
  where inserting an undefined value removes the key. `Append` is
  `QJsonArray::append`, which stores an undefined value as null.
- `Errors` (`errors.dfy`): the error record `{id, code, message, data}` and the
  five reserved codes of section 5.1 of JSON-RPC 2.0.
- `Exceptions` (`exceptions.dfy`): `Exc` has one constructor per concrete
  exception class. `ExcClass` and `Parent` give the class hierarchy.
  `GenerateError` and `GenerateErrorWithoutId` are the two error projections.
- `Messages` (`message.dfy`): envelope parsing, `GetId`, `HasId` and the
  programmatic constructors.
- `Requests` (`request.dfy`): request parsing, `buildArguments`, `toJson`, the
  programmatic constructors and the getters.

Constructors that throw become functions returning `Result`. A C++ `throw` of a
bare string (message.cpp) becomes `Failure(Thrown(text))`. A throw of a class
from the hierarchy (request.cpp) becomes `Failure(Raised(exc))`. The two loops
of request.cpp have their own methods, `Requests.BuildArguments` and
`Requests.ToJson`. Each is proved equal to a specification function
(`ParamsArguments`, `Serialized`), and the properties are proved as lemmas
about those functions. `Requests.FromJson` is the constructor as an
imperative method that calls `BuildArguments`. Its contract says it agrees
with `Requests.Parse`.

Where the specification and the code disagree, the model follows the code:

- A bad `jsonrpc` tag or a bad id throws the bare string `"Invalid message"`
  (src/message.cpp:8, 13). It does not raise `InvalidRequest`.
- The id check accepts any number, the way `isDouble()` does.

## Model

| member | source | states |
|---|---|---|
| QJson.Value | src/message.cpp:7-11 | a member lookup gives the stored value, or JUndefined when the key is absent |
| QJson.Insert | src/request.cpp:30-37 | after insertion the key reads back as the inserted value (an undefined value removes the key) and every other key is unchanged |
| QJson.ArrayElement | src/request.cpp:35 | QJsonArray::append stores an undefined value as null and any other value as it is, so an array never holds an undefined element |
| QJson.Append | src/request.cpp:35 | appending keeps the existing elements and adds the stored form of the new one at the end |
| QJson.ArrayOf | src/request.cpp:33-36 | the array built by appending each value has the same length, holds each value's stored form at the same index, and equals the values when none is undefined |
| Errors.Code | include/exceptions.h:21 | each error kind has its JSON-RPC 2.0 section 5.1 code, and every code lies in the reserved range -32768..-32000 |
| Errors.KindOfCode | include/exceptions.h:21 | the inverse of the code table: a code it recognises maps back to a kind with that code |
| Errors.CodeIsInjective | include/exceptions.h:21 | every kind's code maps back to that kind, so no two kinds share a code |
| Exceptions.Parent | include/exceptions.h:29-113 | the direct base class of each class, as its declaration gives it; only the root has none |
| Exceptions.IsA | include/exceptions.h:29-113 | derivation in the hierarchy: every class derives from itself and from the root JsonrpcException, and an ancestor is never deeper than its descendant |
| Exceptions.ClassOf | include/exceptions.h:15-120 | every exception value belongs to a concrete class (never the abstract JsonrpcException) that derives from JsonrpcException |
| Exceptions.KindOf | include/exceptions.h:34-118 | the InvalidMessage family projects to Invalid Request and the InvalidSignature family to Method not found or Invalid params; Method not found is exactly UnknownMethodName, Parse error exactly ParseError, Internal error exactly InvokationFailed |
| Exceptions.GetMessage | include/exceptions.h:22 | getMessage returns the stored text unchanged |
| Exceptions.GenerateError | include/exceptions.h:21-22 | generateError(id) addresses the error to id, takes its code from the class alone and its message from the stored text that getMessage returns |
| Exceptions.GenerateErrorWithoutId | include/exceptions.h:83-119 | the id-less generateError() is callable only on ParseError and the InvalidMessage family; it addresses the error to null, with code Parse error or Invalid Request |
| Exceptions.Clone | include/exceptions.h:20-117 | clone gives a value equal to the original: the same concrete class, the same message and constructor arguments, and every error projection unchanged |
| Exceptions.FamilyMembership | include/exceptions.h:29-113 | the InvalidSignature family is exactly InvalidSignature, UnknownMethodName, WrongArgumentCount and WrongArgumentType; the InvalidMessage family is exactly InvalidMessage, InvalidRequest, InvalidResponse and InvalidError; InvalidSignature, InvokationFailed, ParseError and InvalidMessage derive from the root directly |
| Exceptions.SubtreesPartition | include/exceptions.h:29-113 | every concrete class lies in exactly one of the four subtrees below the root |
| Exceptions.IdlessProjectionClasses | include/exceptions.h:83-119 | an id-less projection exists exactly for ParseError, InvalidMessage, InvalidRequest, InvalidResponse and InvalidError |
| Exceptions.CodeDependsOnlyOnClass | include/exceptions.h:21-118 | two exceptions of one class project to the same code, whatever their texts, arguments and ids |
| Exceptions.CodeIsStandard | include/exceptions.h:21-118 | every projected code is one of the five standard codes and maps back to its class's kind |
| Exceptions.CodeTable | include/exceptions.h:34-118 | ParseError -32700, InvalidMessage family -32600, UnknownMethodName -32601, the other InvalidSignature classes -32602, InvokationFailed -32603 |
| Messages.Parse | src/message.cpp:5-15 | parsing succeeds iff `jsonrpc` is the string "2.0" and the id is absent, null, a string or a number; the stored id is the object's `id` member; every failure is the same thrown "Invalid message" |
| Messages.VersionRequired | src/message.cpp:7-9 | any object without the string "2.0" under `jsonrpc` is rejected, whatever its id |
| Messages.IdShapeDecides | src/message.cpp:11-14 | with a valid tag, absent, null, string and number ids are accepted and bool, array and object ids are rejected |
| Messages.ChecksIndistinguishable | src/message.cpp:7-14 | a version failure and an id failure produce identical results |
| Messages.ParsedHasId | src/message.cpp:17-25 | on a parsed message hasId holds iff the id is a string or a number; an absent id reads back as undefined |
| Messages.GetId | src/message.cpp:17-20 | getId returns the stored id unchanged |
| Messages.HasId | src/message.cpp:22-25 | hasId holds iff the id is neither undefined nor null |
| Messages.Default | src/message.cpp:32-35 | Message() has a null id, so hasId is false |
| Messages.FromIdAsWritten | src/message.cpp:37-40 | Message(id) as written ignores its argument: the result is Message() and hasId is false |
| Messages.FromIdAsWrittenDropsId | src/message.cpp:37-40 | for id 1 the as-written constructor reports no id, while the corrected one does |
| Messages.FromId | src/message.cpp:37-40 | Message(id) as intended: getId returns id, and hasId holds iff id is neither undefined nor null |
| Requests.GetMethodName | src/request.cpp:19-21 | getMethodName returns the stored method name unchanged |
| Requests.GetArguments | src/request.cpp:23-25 | getArguments returns the stored argument list unchanged |
| Requests.ParamsArguments | src/request.cpp:48-67 | `params` yields arguments iff it is an array (its elements) or absent (none); objects and every other type yield nothing |
| Requests.BuildArguments | src/request.cpp:48-67 | buildArguments succeeds iff `params` is an array or absent; on success it appends exactly the array's elements in order, and on failure the argument list is unchanged |
| Requests.Parse | src/request.cpp:7-17 | parsing succeeds iff the envelope is valid, `method` is a string and `params` gives arguments; the result holds the envelope's id, that string and those arguments |
| Requests.FromJson | src/request.cpp:7-17 | the constructor, which runs buildArguments on an empty list, yields exactly what Parse specifies |
| Requests.ParsedPassedEnvelope | src/request.cpp:7 | every parsed request passed the version and id checks and carries the object's id |
| Requests.EmptyMethodNameAccepted | src/request.cpp:8-12 | the empty string is accepted as a method name: parsing does not reject it |
| Requests.ParseFailures | src/request.cpp:7-16 | the envelope failure comes first, then InvalidRequest("the method is no string."), then InvalidRequest("params seems to be invalid.") |
| Requests.NamedParamsRejected | src/request.cpp:58-63 | object-shaped params, `{}` included, are rejected with InvalidRequest("params seems to be invalid.") |
| Requests.ParamsBecomeArguments | src/request.cpp:48-57 | array params become arguments of the same length with the same elements in order; absent params give no arguments |
| Requests.New | src/request.cpp:43 | Request(methodName, arguments) stores both unchanged and has no id |
| Requests.NewWithIdAsWritten | src/request.cpp:45-46 | Request(id, methodName, arguments) as written stores the name and arguments but, through Message(id), no id: the base part is Message() |
| Requests.NewWithIdAsWrittenDropsId | src/request.cpp:45-46 | for id 1 the as-written request constructor reports no id, while the corrected one does |
| Requests.NewWithId | src/request.cpp:45-46 | Request(id, methodName, arguments) stores all three unchanged (with the corrected Message(id)) |
| Requests.Serialized | src/request.cpp:27-41 | toJson sets `method` to the method name, sets `params` only when there are arguments, to an array holding them in order as append stores them (an undefined one as null), and keeps every other member of the envelope |
| Requests.ToJson | src/request.cpp:27-41 | the copying loop, which appends one argument at a time, builds exactly the object Serialized describes |
| Requests.RoundTrip | src/request.cpp:27-57 | parsing toJson over a valid envelope without `params` gives back the envelope's id, the method name and the arguments as the array stored them, the empty list included |
| Requests.RoundTripGetters | src/request.cpp:19-57 | for a request built with an id, over an envelope with that id, getId, getMethodName and getArguments after a serialise-and-parse round trip return what was given, when no argument is undefined |
| Requests.UndefinedArgumentBecomesNull | src/request.cpp:33-37 | an undefined argument is serialised as a null array element and parses back as null |

## Left out

- `Message::toJson` (src/message.cpp:27-30): its body is empty and returns nothing. `Requests.Serialized` and `Requests.ToJson` therefore take the envelope object as a parameter.
- `raise()`: throwing is modelled by returning `Failure(Raised(exc))`. No separate member exists for it.
- Exceptions.Exc: the text each exception constructor builds from its arguments lives in a source file that is not part of this model. Each value carries its final text in `message`. A reason-taking constructor's text is taken to be the reason itself.
- Exceptions.GenerateError: the `data` payload of the error is always absent. The projection bodies are not shown, and the model states no diagnostics. The code of the InvalidSignature base class is taken to be Invalid params (-32602), because its body is not shown either.
- Errors.Error: error.h is not part of this model. The error is an abstract record with its id, code, message and optional data. How it is serialised is not modelled.
- The protected default constructor `JsonrpcException()`, the destructor and `WrongArgumentType::setMessage` (include/exceptions.h:18, 25, 66): they are construction details below the message text, which is not modelled.
- JSON numbers are modelled as integers. Only their type matters to this layer, so double precision is not modelled.
- Raw JSON text parsing (QJsonDocument): the model starts from a parsed object.
- The `qDebug` output in `buildArguments` (src/request.cpp:60).
- include/server.h: the WebSocket listener, the signal/slot wiring, the heap ownership and the per-connection handler construction. These are transport plumbing with no protocol logic.
- The connection adapter and its reflective method dispatch: connection.h is not part of this model.
- Batch requests and by-name parameters, which the code does not support.

## Findings

| source | as written | input that shows it | evidently intended | confidence | as-written member | corrected member |
|---|---|---|---|---|---|---|
| src/message.cpp:37-40 | `Message(const QJsonValue& id)` has an empty body, so the id stays null; `Request(id, methodName, arguments)` (src/request.cpp:45-46) therefore builds a request without an id | id = 1: `hasId()` is false and `getId()` is null | the constructor stores the given id | medium, not executed | Messages.FromIdAsWritten, Requests.NewWithIdAsWritten (counterexamples: Messages.FromIdAsWrittenDropsId, Requests.NewWithIdAsWrittenDropsId) | Messages.FromId, Requests.NewWithId |
