# A Dafny model of a minimal JSON-RPC 2.0 client and server

The repository is a small Python 2 JSON-RPC 2.0 implementation. `jsonrpc.py`
holds the protocol: the `ERRORS` and `EXCEPTIONS` tables that map the five
protocol error kinds to the codes -32700 and -32600..-32603, and
`JSONRPCProtocol`, which builds and checks request, response and error
objects. `rpc.py` holds the call pipeline: the error classes, the
`Dispatcher` name-to-handler table, the server's per-connection
`TCPRequestHandler.handle` (unmarshal, dispatch, marshal, send) and the
client's `ServerProxy`, whose attributes become remote calls (marshal,
transport, unmarshal).

The model has four modules, one per file:

- `JsonValue` (`json_value.dfy`): decoded JSON values, bytes, and the json
  library as an abstract codec (`dumps`/`loads` may fail with a ValueError).
  `Lossless` says a codec encodes every value to non-empty bytes and decodes
  them back to the same value.
- `RpcErrors` (`rpc_errors.dfy`): the seven `rpc.Error` kinds, and the outcome
  of a Python call: a returned value, a raised `rpc.Error`, or a raised
  built-in exception (`TypeError`, `NameError`) that `handle` does not catch.
- `JsonRpc` (`jsonrpc.dfy`): the tables, the serializer, the request and
  response envelopes, and the shared `ERRORS` dictionary as the class
  `ErrorTable`, which `MarshallError` updates in place.
- `Rpc` (`rpc.dfy`): the `Dispatcher` class, `TCPServer` and
  `TCPRequestHandler.Handle`, `ServerProxy` and `FunctionProxy`, the functions
  `Serve` and `Call` that specify the server and client methods, and the
  lemmas that connect a client to a server.

Quirks of the code that the model keeps as written:

- `marshall_error` writes `data` into the shared `ERRORS` entry, so the table
  keeps the data of the last error of each kind (`MarshallError`,
  `TableRemembersLastError`).
- An error kind the table does not list (`InvalidResponseError`,
  `ProtocolError`) still gives an `"error"` member, with value null
  (`ErrorObject`, `ResponseObject`).
- `unmarshall_request` does not check that a non-object `params` is an array.
  A string is spread into one-character arguments. A number, boolean or null
  makes `*args` raise a TypeError that escapes `handle`, so no reply is sent
  (`Spread`, `ScalarParamsUnanswered`).
- A decoded request, response or error member that is not an object makes the
  subscript raise a TypeError, which no `except KeyError` catches.
- `unmarshall_error` returns None for a missing member or an unknown code, and
  `raise None` is itself a TypeError. A list or object as code is unhashable,
  which is also a TypeError (`UnmarshallError`, `ValidateResponse`).
- A keyword argument named `self` or `method` collides with the parameters of
  `dispatch`, and on the client `self`, `name` or `method` collides with the
  parameters of `__call__`, `__remote_call` or `marshall_request`. Each
  collision raises a TypeError (`Capture`, `Call`).
- `dispatch` catches `Exception`, not every exception. A handler that raises
  SystemExit, KeyboardInterrupt or GeneratorExit gets past `dispatch` and
  `handle`, and nothing is sent (`Dispatch`, `HandlerBaseExceptionUnanswered`).

Measured against JSON-RPC 2.0, the code departs from the protocol in a way
the model keeps: an unlisted error kind sends `"error": null`, which section
5.1 of JSON-RPC 2.0 does not allow (the error member must be an object).

Further facts about the code that the model keeps:

- An error object with a code outside ERRORS, such as an application-defined
  code, makes the client raise a TypeError (`UnmarshallError`,
  `ValidateResponse`).
- A `params` value that is not an object is not checked to be an array.
- The method name is accepted whatever string it is, the empty string
  included (`ValidateRequest`).

## Model

| member | source | states |
|---|---|---|
| `JsonRpc.TablesInverse` | jsonrpc.py:6-21 | ERRORS lists exactly the five kinds other than InvalidResponseError and ProtocolError; ERRORS and EXCEPTIONS are inverse on them in both directions |
| `JsonRpc.Encode` | jsonrpc.py:27-31 | encoding fails exactly when the json library raises ValueError, and then with ParseError carrying its text |
| `JsonRpc.Decode` | jsonrpc.py:33-37 | decoding fails exactly when the json library raises ValueError, and then with ParseError carrying its text |
| `JsonRpc.DecodeEncode` | jsonrpc.py:27-37 | with a lossless codec, decode(encode(v)) gives v back and the encoding is non-empty |
| `JsonRpc.RequestObject` | jsonrpc.py:46-60 | ProtocolError iff both positional and keyword arguments are given; otherwise an object with "jsonrpc":"2.0", the method, "id":0, and "params" iff some argument was given (the positional list, else the keyword object) |
| `JsonRpc.MarshallRequest` | jsonrpc.py:46-63 | mixing argument kinds raises ProtocolError; only ProtocolError or ParseError can be raised; with a lossless codec the bytes decode to the request object |
| `JsonRpc.ValidateRequest` | jsonrpc.py:69-91 | a non-object raises TypeError; a missing or wrong "jsonrpc" raises InvalidRequestError before "method" is looked at; success iff version is "2.0" and "method" is a string; object params become (no positional, those keyword arguments), any other params (default empty) become positional with no keyword arguments |
| `JsonRpc.UnmarshallRequest` | jsonrpc.py:65-91 | undecodable bytes raise ParseError with the library's text; otherwise the result is the validation of the decoded value |
| `JsonRpc.RequestRoundTrip` | jsonrpc.py:46-91 | for purely positional or purely keyword calls, unmarshalling the marshalled request gives back the method name, Arr(args) and the keyword arguments |
| `JsonRpc.Data` | jsonrpc.py:142 | `exc.args or None`: null iff the exception has no arguments, else the arguments as a list of strings |
| `JsonRpc.ErrorObject` | jsonrpc.py:139-145 | null iff the kind is not in ERRORS; otherwise exactly the table's code and message plus the exception's data |
| `JsonRpc.ErrorTable.constructor` | jsonrpc.py:6-12 | the live table starts valid, with no entry holding data |
| `JsonRpc.MarshallError` | jsonrpc.py:139-145 | returns the error object of the exception; the shared table keeps its codes and messages and the exception's entry now holds its data; nothing else changes |
| `JsonRpc.RecordedKeepsEntries` | jsonrpc.py:139-143 | one `marshall_error` leaves every entry with its fixed code and message |
| `JsonRpc.RecordedEntryIsErrorObject` | jsonrpc.py:139-145 | the entry `marshall_error` writes back into the table is exactly the error object it returns, and a kind has an entry iff ERRORS lists it |
| `JsonRpc.RecordAllKeepsEntries` | jsonrpc.py:139-143 | any sequence of `marshall_error` calls leaves the table listing the five kinds with their fixed codes and messages |
| `JsonRpc.TableRemembersLastError` | jsonrpc.py:139-143 | after any sequence of `marshall_error` calls, each listed kind's shared entry holds the data of the last error of that kind, or its earlier contents if there was none |
| `JsonRpc.ResponseObject` | jsonrpc.py:93-109 | none iff the request is present and truthy but has no "id"; otherwise "jsonrpc":"2.0", "id" echoing the request's id or null without a request, and exactly one of "error" (iff an error was given, as its error object) and "result" |
| `JsonRpc.MarshallResponse` | jsonrpc.py:93-111 | returns the encoded response object (nothing for a notification); writes to the shared table only when it emits an error member |
| `JsonRpc.UnmarshallError` | jsonrpc.py:147-153 | only TypeError can be raised, exactly for a non-object, or for a list or object code when code, message and data are all present; a known code with all three members gives that code's kind with the single message "<message>: <data>"; a missing member or unknown code gives None |
| `JsonRpc.ErrorRoundTrip` | jsonrpc.py:139-153 | a listed kind's error object is turned back into the same kind with message "<table message>: <data>"; an unlisted kind gives null, which raises TypeError |
| `JsonRpc.ValidateResponse` | jsonrpc.py:117-137 | checks in order: non-object (TypeError), missing or wrong "jsonrpc", missing "id" (InvalidResponseError); an "error" member is raised and wins over "result"; success iff "result" is present with no "error"; neither gives InvalidResponseError |
| `JsonRpc.UnmarshallResponse` | jsonrpc.py:113-137 | undecodable bytes raise ParseError; otherwise the result is the validation of the decoded value |
| `JsonRpc.ResponseRoundTrip` | jsonrpc.py:93-137 | with a lossless codec, a response marshalled for a non-notification reads back as its result, or, for a kind ERRORS lists, raises its error reconstructed by kind and message "<table message>: <data>" |
| `Rpc.RegistrationName` | rpc.py:87-89 | the key is the given name unless it is missing or empty, else the handler's own name |
| `Rpc.Dispatcher.constructor` | rpc.py:84-85 | a new dispatcher has no handlers |
| `Rpc.Dispatcher.RegisterFunction` | rpc.py:87-89 | the handler is stored under its key, overwriting; the key set grows by that key only and every other entry is unchanged |
| `Rpc.Dispatcher.Dispatch` | rpc.py:91-103 | unknown name raises MethodNotFoundError(name); a handler's value is returned unchanged; its TypeError becomes InvalidParamsError and any other `Exception` InternalError with the same message; an exception outside `Exception` passes through unchanged; apart from that only listed rpc errors escape, and from a found handler only those two |
| `Rpc.Dispatcher.DispatchAsWritten` | rpc.py:91-103 | as written, an unknown name raises NameError("rpc"); a found name behaves as Dispatch |
| `Rpc.Spread` | rpc.py:114 | `*args` on params: a list gives its items, a string its one-character strings, null, booleans and numbers fail |
| `Rpc.TCPServer.constructor` | rpc.py:129-132 | built over a valid ERRORS table, the server keeps its protocol and gets a fresh, empty dispatcher |
| `Rpc.TCPServer.RegisterFunction` | rpc.py:134-135 | registers on the server's dispatcher under the key |
| `Rpc.TCPRequestHandler.constructor` | rpc.py:106 | a handler is bound to the server it serves, as `BaseRequestHandler` binds `self.server` |
| `Rpc.TCPRequestHandler.Handle` | rpc.py:108-123 | the connection's outcome is `Serve`: rpc errors from unmarshalling or dispatch are answered, other exceptions escape unanswered, bytes are sent only when the response is non-empty; the shared table changes only when an error response is built |
| `Rpc.NotificationNeverAnswered` | rpc.py:118-123 | a valid request without "id" never gets a reply |
| `Rpc.ScalarParamsUnanswered` | rpc.py:111-116 | a valid request whose params is null, a boolean or a number ends in an escaping TypeError |
| `Rpc.CapturedIsAnswered` | rpc.py:118-123 | with a lossless codec, every captured outcome for a non-notification is sent and decodes to the response object |
| `Rpc.UnmarshalFailureAnswered` | rpc.py:110-120 | with a lossless codec, an rpc error while unmarshalling is ParseError or InvalidRequestError and is answered with that error and id null |
| `Rpc.DispatchedRequestAnswered` | rpc.py:111-123 | with a lossless codec, a request with an id whose params can be spread and which has no keyword named self or method is answered iff its dispatch returns or raises an rpc error, echoing the id with the handler's result or the dispatcher's error object; otherwise the dispatch's exception escapes unanswered |
| `Rpc.CaptureAsWritten` | rpc.py:108-121 | the try block of `handle` with the as-written dispatch: the same as `Capture` except for a request whose params can be spread, which has no keyword named self or method, and which names an unregistered method; exactly that request escapes with NameError("rpc") |
| `Rpc.UnregisteredMethodUnansweredAsWritten` | rpc.py:93-96 | as written, bytes that unmarshal to a request for an unregistered method, whose params can be spread and which has no keyword named self or method, end `handle` with NameError and nothing is sent |
| `Rpc.HandlerBaseExceptionUnanswered` | rpc.py:98-103 | a handler that raises something outside `Exception` (SystemExit, KeyboardInterrupt, GeneratorExit) ends `handle` with that exception, and nothing is sent, whether or not the request has an id |
| `Rpc.ServerProxy.constructor` | rpc.py:167-169 | the proxy keeps its transport and protocol |
| `Rpc.ServerProxy.GetAttr` | rpc.py:171-172 | any attribute name gives a fresh callable bound to this proxy and that name |
| `Rpc.ServerProxy.RemoteCall` | rpc.py:174-179 | the call's outcome is `Call`: marshal under the name, send, None on an empty reply, else the unmarshalled result or its error |
| `Rpc.FunctionProxy.constructor` | rpc.py:157-159 | the callable keeps its proxy and name |
| `Rpc.FunctionProxy.Invoke` | rpc.py:161-162 | invoking the callable is a remote call with its bound name |
| `Rpc.MixedArgumentsNeverSent` | rpc.py:174-176 | a call with both positional and keyword arguments, none of them named self, name or method, raises ProtocolError whatever the transport |
| `Rpc.EmptyReplyReturnsNone` | rpc.py:174-179 | an empty reply from the transport makes the call return None |
| `Rpc.RemoteCallReachesHandler` | rpc.py:174-179 | with a lossless codec, purely positional or purely keyword arguments and no keyword named self, name or method, a call through a transport connected to a server returns exactly the dispatcher's value, or raises the dispatcher's error kind with message "<table message>: <data>"; a handler exception outside `Exception` leaves the reply empty, which the modelled transport turns into None |
| `Rpc.UnknownMethodRaisedAtClient` | rpc.py:93-96 | with the intended dispatch, a lossless codec, a transport connected to the server, purely positional or purely keyword arguments and no keyword named self, name or method, calling an unregistered method raises MethodNotFoundError at the client, with the name as data |
| `Rpc.HandlerFailureSeenAsInternalError` | rpc.py:98-103 | with a lossless codec, a transport connected to the server, purely positional or purely keyword arguments and no keyword named self, name or method, a handler's failure with an `Exception` other than TypeError reaches the client as InternalError, never as its own kind |

## Findings

| source | as written | input that shows it | evidently intended | confidence | as-written member | corrected member |
|---|---|---|---|---|---|---|
| rpc.py:96 | `raise rpc.MethodNotFoundError(method)`, but rpc.py never imports a name `rpc`, so this raises NameError, which `handle` does not catch; the server sends nothing | a request for any unregistered method, such as `"sub"` | raise MethodNotFoundError(method), answered with code -32601 | high; not executed | `Rpc.UnregisteredMethodUnansweredAsWritten` | `Rpc.UnknownMethodRaisedAtClient` |

The server functions `Capture` and `Serve` use the corrected `Dispatch`.

## Left out

- Sockets, `util.py`, `TCPSocketTransport.send_request`, the `SocketServer`
  accept loop, `serve_forever` and the thread per connection are left out:
  they are networking and concurrency. The server's read is the `data`
  parameter of `Handle` and its send is the returned `Replied` bytes. The
  client's transport is an abstract function from bytes to bytes. A socket
  error is not modelled; in particular `socket_read` raises on a closed
  connection, so an unanswered request surfaces at the client as a socket
  error, not as the empty reply of rpc.py:177. This applies to every request
  that ends `handle` with an uncaught exception: the as-written NameError and a
  handler's exception outside `Exception` (`RemoteCallReachesHandler` states
  the modelled transport's empty reply, not the socket error).
- `MarshallError`: returns a copy of the table entry. In Python the returned
  dict is the shared entry itself, so a concurrent `marshall_error` on another
  connection could change its data before it is encoded. That interleaving is
  not modelled.
- The json library's text format is not modelled. `dumps` and `loads` are the
  fields of a `Codec` parameter, and floats are not among the values.
- Python's `%s` rendering of decoded values in `unmarshall_error` is the
  protocol's `render` parameter; its exact text (repr quoting, dict order) is
  not modelled.
- Python 2 `unicode` versus `str`, and the Issue4978 key conversion
  (jsonrpc.py:88-89), are left out. All strings are one type, and the
  conversion is the identity.
- Registered handlers such as `pow` and the `add` lambda are foreign
  callables. Each is a `Handler`: a name and a function from arguments to an
  outcome.
- `__getattr__` only runs for attribute names the proxy does not already
  have (`_transport`, `_protocol`, special names). The model turns every name
  into a remote call.
- The abstract base classes `Serializer`, `Protocol` and `Transport` with their
  `NotImplementedError` bodies are left out. The JSON-RPC protocol is the only
  implementation, and the model uses it directly.
- Server addresses, `allow_reuse_address` and the `__main__` blocks are left out.
