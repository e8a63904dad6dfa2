/** The call pipeline of rpc.py: the dispatcher's name-to-handler table, the
    server's per-connection handling (unmarshal, dispatch, marshal, send), and
    the client proxy (marshal, transport, unmarshal). The socket read and send
    of the server become the `data` parameter and the returned reply; the
    client's transport is an abstract function from request bytes to response
    bytes. JSON-RPC is the only protocol the repository implements, so the
    server and the proxy use the protocol of jsonrpc.py directly.
 */
module Rpc {
  import opened JsonValue
  import opened RpcErrors
  import opened JsonRpc

  // ---------------------------------------------------------------------------
  // Dispatcher
  // ---------------------------------------------------------------------------

  /** What a registered Python callable does when called: return a value, raise
      a TypeError (wrong arity or argument types), raise any other `Exception`
      (the message is `str(e)` of the raised exception), or raise something that
      is not an `Exception` at all, of class `cls`. */
  datatype HandlerOutcome =
    | Ok(value: Json)
    | TypeErr(message: string)
    | OtherErr(message: string)
    | BaseErr(cls: string)

  /** A registered callable: its `__name__` and its behaviour on positional and keyword arguments. */
  datatype Handler = Handler(name: string, call: (seq<Json>, map<string, Json>) -> HandlerOutcome)

  /** The key `register_function` uses: `name or function.__name__`, so a
      missing or empty name falls back to the handler's own name. */
  function RegistrationName(f: Handler, name: Option<string>): (key: string)
    ensures name.Some? && name.value != "" ==> key == name.value
    ensures name.None? || name.value == "" ==> key == f.name
  {
    if name.Some? && name.value != "" then name.value else f.name
  }

  class Dispatcher {
    var funcs: map<string, Handler>

    constructor ()
      ensures funcs == map[]
    {
      funcs := map[];
    }

    /** `register_function`: store the handler under its key, overwriting any
        handler registered there before and leaving every other name alone. */
    method RegisterFunction(f: Handler, name: Option<string>)
      modifies this
      ensures RegistrationName(f, name) in funcs && funcs[RegistrationName(f, name)] == f
      ensures funcs.Keys == old(funcs).Keys + {RegistrationName(f, name)}
      ensures forall n :: n in old(funcs) && n != RegistrationName(f, name) ==> funcs[n] == old(funcs)[n]
    {
      funcs := funcs[RegistrationName(f, name) := f];
    }

    /** `dispatch` as evidently intended: an unknown name raises
        MethodNotFoundError(name); a found handler's result is returned as is;
        its TypeError becomes InvalidParamsError and any other `Exception`
        InternalError, both carrying the original message. What is not an
        `Exception` passes through `except Exception` unchanged. Apart from
        that, only listed rpc errors leave, and from a found handler only those
        two kinds. */
    function Dispatch(name: string, args: seq<Json>, kwargs: map<string, Json>): (r: Outcome<Json>)
      reads this
      ensures name !in funcs ==> r == Fail(MethodNotFoundError, name)
      ensures name in funcs && funcs[name].call(args, kwargs).Ok? ==>
        r == Return(funcs[name].call(args, kwargs).value)
      ensures name in funcs && funcs[name].call(args, kwargs).TypeErr? ==>
        r == Fail(InvalidParamsError, funcs[name].call(args, kwargs).message)
      ensures name in funcs && funcs[name].call(args, kwargs).OtherErr? ==>
        r == Fail(InternalError, funcs[name].call(args, kwargs).message)
      ensures name in funcs && funcs[name].call(args, kwargs).BaseErr? ==>
        r == Raise(NonException(funcs[name].call(args, kwargs).cls))
      ensures r.Raise? ==>
        || (Caught(r.exc) && r.exc.error.kind in ERRORS)
        || (name in funcs && funcs[name].call(args, kwargs).BaseErr?)
      ensures name in funcs && r.Raise? && Caught(r.exc) ==> r.exc.error.kind in {InvalidParamsError, InternalError}
    {
      if name !in funcs then
        Fail(MethodNotFoundError, name)
      else
        match funcs[name].call(args, kwargs)
        case Ok(v) => Return(v)
        case TypeErr(m) => Fail(InvalidParamsError, m)
        case OtherErr(m) => Fail(InternalError, m)
        case BaseErr(cls) => Raise(NonException(cls))
    }

    /** `dispatch` as written: the unknown-name branch refers to `rpc`, a name
        rpc.py never imports, so it raises NameError instead. */
    function DispatchAsWritten(name: string, args: seq<Json>, kwargs: map<string, Json>): (r: Outcome<Json>)
      reads this
      ensures name !in funcs ==> r == Raise(NameError("rpc"))
      ensures name in funcs ==> r == Dispatch(name, args, kwargs)
    {
      if name !in funcs then Raise(NameError("rpc")) else Dispatch(name, args, kwargs)
    }
  }

  // ---------------------------------------------------------------------------
  // Server side: TCPServer and TCPRequestHandler.handle
  // ---------------------------------------------------------------------------

  /** How one connection ends: the bytes sent back, nothing sent, or an
      exception that escapes `handle` (the connection then closes unanswered). */
  datatype HandleResult = Replied(data: Bytes) | NoReply | Escaped(exc: PyException)

  /** The bytes the peer receives. */
  function Sent(h: HandleResult): (r: Bytes)
  {
    if h.Replied? then h.data else []
  }

  /** The locals `request`, `result`, `error` after the try block of `handle`,
      or the exception that leaves the try block because it is not an rpc error. */
  datatype Captured =
    | Captured(request: Option<map<string, Json>>, result: Json, error: Option<Error>)
    | Escaping(exc: PyException)

  /** Keyword names that collide with the parameters of `dispatch(self, method, ...)`. */
  const DispatchReserved: set<string> := {"self", "method"}

  /** Python's `*args` on the `params` value: a list spreads into its items, a
      string into its one-character strings, anything else is a TypeError (None). */
  function Spread(args: Json): (r: Option<seq<Json>>)
    requires !args.Obj?
    ensures r.None? <==> args.Null? || args.Bool? || args.Int?
    ensures args.Arr? ==> r == Some(args.items)
    ensures args.Str? ==>
      && r.Some? && |r.value| == |args.s|
      && forall i :: 0 <= i < |args.s| ==> r.value[i] == Str([args.s[i]])
  {
    match args
    case Arr(items) => Some(items)
    case Str(s) => Some(seq(|s|, i requires 0 <= i < |s| => Str([s[i]])))
    case _ => None
  }

  /** The try block once `unmarshall_request` has returned `req` and dispatch has produced `o`. */
  function AfterDispatch(req: Request, o: Outcome<Json>): (r: Captured)
  {
    match o
    case Return(v) => Captured(Some(req.raw), v, None)
    case Raise(e) => if Caught(e) then Captured(Some(req.raw), Null, Some(e.error)) else Escaping(e)
  }

  /** The try block of `handle` on the bytes `data`. */
  function Capture(p: Protocol, d: Dispatcher, data: Bytes): (r: Captured)
    reads d
  {
    match UnmarshallRequest(p, data)
    case Raise(e) => if Caught(e) then Captured(None, Null, Some(e.error)) else Escaping(e)
    case Return(req) =>
      var positional := Spread(req.args);
      if positional.None? || !(req.kwargs.Keys !! DispatchReserved) then Escaping(TypeError)
      else AfterDispatch(req, d.Dispatch(req.name, positional.value, req.kwargs))
  }

  /** The try block of `handle` with `dispatch` as written: it differs from
      `Capture` only when a spreadable request names an unregistered method,
      whose NameError leaves the try block uncaught. */
  function CaptureAsWritten(p: Protocol, d: Dispatcher, data: Bytes): (r: Captured)
    reads d
    ensures r == Capture(p, d, data) || r == Escaping(NameError("rpc"))
    ensures r == Escaping(NameError("rpc")) <==>
      && UnmarshallRequest(p, data).Return?
      && Spread(UnmarshallRequest(p, data).value.args).Some?
      && UnmarshallRequest(p, data).value.kwargs.Keys !! DispatchReserved
      && UnmarshallRequest(p, data).value.name !in d.funcs
  {
    match UnmarshallRequest(p, data)
    case Raise(e) => if Caught(e) then Captured(None, Null, Some(e.error)) else Escaping(e)
    case Return(req) =>
      var positional := Spread(req.args);
      if positional.None? || !(req.kwargs.Keys !! DispatchReserved) then Escaping(TypeError)
      else AfterDispatch(req, d.DispatchAsWritten(req.name, positional.value, req.kwargs))
  }

  /** The rest of `handle`: marshal the response and send it only if it is non-empty. */
  function Reply(p: Protocol, c: Captured): (r: HandleResult)
  {
    match c
    case Escaping(e) => Escaped(e)
    case Captured(request, result, error) =>
      match ResponseBytes(p, request, result, error)
      case Raise(e) => Escaped(e)
      case Return(None) => NoReply
      case Return(Some(b)) => if b != [] then Replied(b) else NoReply
  }

  /** One connection served end to end. */
  function Serve(p: Protocol, d: Dispatcher, data: Bytes): (r: HandleResult)
    reads d
  {
    Reply(p, Capture(p, d, data))
  }

  /** The ERRORS table after a connection: only a response carrying an error writes to it. */
  function TableAfter(entries: map<ErrorKind, map<string, Json>>, c: Captured): (r: map<ErrorKind, map<string, Json>>)
  {
    if c.Captured? && Responds(c.request) && c.error.Some? then Recorded(entries, c.error.value) else entries
  }

  class TCPServer {
    const protocol: Protocol
    const dispatcher: Dispatcher

    constructor (protocol: Protocol)
      requires protocol.errors.Valid()
      ensures this.protocol == protocol
      ensures fresh(dispatcher) && dispatcher.funcs == map[]
    {
      this.protocol := protocol;
      dispatcher := new Dispatcher();
    }

    /** `TCPServer.register_function`: delegates to the dispatcher. */
    method RegisterFunction(f: Handler, name: Option<string>)
      modifies dispatcher
      ensures dispatcher.funcs == old(dispatcher.funcs)[RegistrationName(f, name) := f]
    {
      dispatcher.RegisterFunction(f, name);
    }
  }

  class TCPRequestHandler {
    const server: TCPServer

    constructor (server: TCPServer)
      ensures this.server == server
    {
      this.server := server;
    }

    /** `handle` on the bytes read from the connection. Any rpc error from
        unmarshalling or dispatch is captured and answered; other exceptions
        escape; a reply is sent only when `marshall_response` produced bytes. */
    method Handle(data: Bytes) returns (outcome: HandleResult)
      requires server.protocol.errors.Valid()
      modifies server.protocol.errors
      ensures server.protocol.errors.Valid()
      ensures outcome == Serve(server.protocol, server.dispatcher, data)
      ensures server.protocol.errors.entries ==
        TableAfter(old(server.protocol.errors.entries), Capture(server.protocol, server.dispatcher, data))
    {
      var p := server.protocol;
      var request: Option<map<string, Json>> := None;
      var result: Json := Null;
      var error: Option<Error> := None;
      var unmarshalled := UnmarshallRequest(p, data);
      match unmarshalled {
        case Raise(e) =>
          if !Caught(e) {
            return Escaped(e);
          }
          error := Some(e.error);
        case Return(req) =>
          var positional := Spread(req.args);
          if positional.None? || !(req.kwargs.Keys !! DispatchReserved) {
            return Escaped(TypeError);
          }
          request := Some(req.raw);
          var dispatched := server.dispatcher.Dispatch(req.name, positional.value, req.kwargs);
          match dispatched {
            case Return(v) =>
              result := v;
            case Raise(e) =>
              if !Caught(e) {
                return Escaped(e);
              }
              error := Some(e.error);
          }
      }
      var response := MarshallResponse(p, request, result, error);
      match response {
        case Raise(e) =>
          outcome := Escaped(e);
        case Return(None) =>
          outcome := NoReply;
        case Return(Some(b)) =>
          outcome := if b != [] then Replied(b) else NoReply;
      }
    }
  }

  // ---------------------------------------------------------------------------
  // Client side: ServerProxy, _FunctionProxy
  // ---------------------------------------------------------------------------

  /** Keyword names that collide with the parameters on the client's call path:
      `__call__(self, ...)`, `__remote_call(self, name, ...)` and
      `marshall_request(self, method, ...)`. */
  const CallReserved: set<string> := {"self", "name", "method"}

  /** `__remote_call`: marshal, send through the transport, and unmarshal the
      reply; an empty reply gives None. */
  function Call(p: Protocol, transport: Bytes -> Bytes, name: string, args: seq<Json>, kwargs: map<string, Json>): (r: Outcome<Json>)
  {
    if !(kwargs.Keys !! CallReserved) then
      Raise(TypeError)
    else
      match MarshallRequest(p, name, args, kwargs)
      case Raise(e) => Raise(e)
      case Return(request) =>
        var data := transport(request);
        if data == [] then
          Return(Null)
        else
          match UnmarshallResponse(p, data)
          case Raise(e) => Raise(e)
          case Return(response) => Return(response.result)
  }

  class ServerProxy {
    const transport: Bytes -> Bytes
    const protocol: Protocol

    constructor (transport: Bytes -> Bytes, protocol: Protocol)
      ensures this.transport == transport && this.protocol == protocol
    {
      this.transport := transport;
      this.protocol := protocol;
    }

    /** `__getattr__`: any attribute name yields a callable bound to that name. */
    method GetAttr(name: string) returns (f: FunctionProxy)
      ensures fresh(f) && f.proxy == this && f.name == name
    {
      f := new FunctionProxy(this, name);
    }

    /** `__remote_call`, step by step. */
    method RemoteCall(name: string, args: seq<Json>, kwargs: map<string, Json>) returns (r: Outcome<Json>)
      ensures r == Call(protocol, transport, name, args, kwargs)
    {
      if !(kwargs.Keys !! CallReserved) {
        return Raise(TypeError);
      }
      var request := MarshallRequest(protocol, name, args, kwargs);
      if request.Raise? {
        return Raise(request.exc);
      }
      var data := transport(request.value);
      if data == [] {
        return Return(Null);
      }
      var response := UnmarshallResponse(protocol, data);
      if response.Raise? {
        return Raise(response.exc);
      }
      r := Return(response.value.result);
    }
  }

  /** `_FunctionProxy`: a remote method bound to its name. */
  class FunctionProxy {
    const proxy: ServerProxy
    const name: string

    constructor (proxy: ServerProxy, name: string)
      ensures this.proxy == proxy && this.name == name
    {
      this.proxy := proxy;
      this.name := name;
    }

    /** `__call__`: invoke `__remote_call` with the bound name. */
    method Invoke(args: seq<Json>, kwargs: map<string, Json>) returns (r: Outcome<Json>)
      ensures r == Call(proxy.protocol, proxy.transport, name, args, kwargs)
    {
      if "self" in kwargs {
        return Raise(TypeError);
      }
      r := proxy.RemoteCall(name, args, kwargs);
    }
  }

  // ---------------------------------------------------------------------------
  // Properties of the server
  // ---------------------------------------------------------------------------

  /** A valid request without an "id" member (a notification) is never answered. */
  lemma NotificationNeverAnswered(p: Protocol, d: Dispatcher, data: Bytes)
    requires UnmarshallRequest(p, data).Return?
    requires "id" !in UnmarshallRequest(p, data).value.raw
    ensures !Serve(p, d, data).Replied?
  {
    var req := UnmarshallRequest(p, data).value;
    assert "jsonrpc" in req.raw;
  }

  /** A `params` value that is null, a boolean or a number passes validation
      but breaks `*args`: the TypeError escapes `handle` and nothing is sent. */
  lemma ScalarParamsUnanswered(p: Protocol, d: Dispatcher, data: Bytes)
    requires UnmarshallRequest(p, data).Return?
    requires var args := UnmarshallRequest(p, data).value.args; args.Null? || args.Bool? || args.Int?
    ensures Serve(p, d, data) == Escaped(TypeError)
  {
  }

  /** With a lossless codec, a captured outcome for a request that expects an
      answer is sent, and the bytes decode to the response object. */
  lemma CapturedIsAnswered(p: Protocol, c: Captured)
    requires Lossless(p.serializer)
    requires c.Captured? && Responds(c.request)
    ensures Reply(p, c).Replied?
    ensures p.serializer.loads(Reply(p, c).data) == Done(ResponseObject(c.request, c.result, c.error).value)
  {
    DecodeEncode(p.serializer, ResponseObject(c.request, c.result, c.error).value);
  }

  /** Bytes that do not decode, or decode to an invalid request object, are
      answered with a ParseError or InvalidRequestError and a null id. */
  lemma UnmarshalFailureAnswered(p: Protocol, d: Dispatcher, data: Bytes)
    requires Lossless(p.serializer)
    requires UnmarshallRequest(p, data).Raise? && Caught(UnmarshallRequest(p, data).exc)
    ensures UnmarshallRequest(p, data).exc.error.kind in {ParseError, InvalidRequestError}
    ensures Serve(p, d, data).Replied?
    ensures p.serializer.loads(Serve(p, d, data).data) ==
      Done(Obj(map["jsonrpc" := Version, "id" := Null, "error" := ErrorObject(UnmarshallRequest(p, data).exc.error)]))
  {
    var e := UnmarshallRequest(p, data).exc.error;
    var c := Capture(p, d, data);
    assert c == Captured(None, Null, Some(e));
    CapturedIsAnswered(p, c);
    var resp := ResponseObject(None, Null, Some(e)).value;
    assert resp.fields == map["jsonrpc" := Version, "id" := Null, "error" := ErrorObject(e)];
  }

  /** A dispatched request with an id is answered with the id echoed and either
      the handler's result or the dispatcher's error object. */
  lemma DispatchedRequestAnswered(p: Protocol, d: Dispatcher, data: Bytes)
    requires Lossless(p.serializer)
    requires UnmarshallRequest(p, data).Return?
    requires "id" in UnmarshallRequest(p, data).value.raw
    requires Spread(UnmarshallRequest(p, data).value.args).Some?
    requires UnmarshallRequest(p, data).value.kwargs.Keys !! DispatchReserved
    ensures
      var req := UnmarshallRequest(p, data).value;
      var o := d.Dispatch(req.name, Spread(req.args).value, req.kwargs);
      && (o.Return? || Caught(o.exc) <==> Serve(p, d, data).Replied?)
      && (o.Raise? && !Caught(o.exc) ==> Serve(p, d, data) == Escaped(o.exc))
      && (Serve(p, d, data).Replied? ==>
            p.serializer.loads(Serve(p, d, data).data) ==
              Done(Obj(if o.Return? then map["jsonrpc" := Version, "id" := req.raw["id"], "result" := o.value]
                       else map["jsonrpc" := Version, "id" := req.raw["id"], "error" := ErrorObject(o.exc.error)])))
  {
    var req := UnmarshallRequest(p, data).value;
    var o := d.Dispatch(req.name, Spread(req.args).value, req.kwargs);
    var c := Capture(p, d, data);
    assert c == AfterDispatch(req, o);
    if o.Raise? && !Caught(o.exc) {
      return;
    }
    assert "jsonrpc" in req.raw;
    CapturedIsAnswered(p, c);
    var resp := ResponseObject(c.request, c.result, c.error).value;
    if o.Return? {
      assert resp.fields == map["jsonrpc" := Version, "id" := req.raw["id"], "result" := o.value];
    } else {
      assert resp.fields == map["jsonrpc" := Version, "id" := req.raw["id"], "error" := ErrorObject(o.exc.error)];
    }
  }

  /** A handler that raises something outside `Exception` gets past both
      `except Exception` in `dispatch` and `except Error` in `handle`: the
      connection ends with that exception and nothing is sent. */
  lemma HandlerBaseExceptionUnanswered(p: Protocol, d: Dispatcher, data: Bytes, req: Request)
    requires UnmarshallRequest(p, data) == Return(req)
    requires Spread(req.args).Some?
    requires req.kwargs.Keys !! DispatchReserved
    requires req.name in d.funcs && d.funcs[req.name].call(Spread(req.args).value, req.kwargs).BaseErr?
    ensures Serve(p, d, data) == Escaped(NonException(d.funcs[req.name].call(Spread(req.args).value, req.kwargs).cls))
    ensures Sent(Serve(p, d, data)) == []
  {
  }

  /** As written, an unregistered method name makes `handle` end with a
      NameError: nothing is sent back to the client. */
  lemma UnregisteredMethodUnansweredAsWritten(p: Protocol, d: Dispatcher, data: Bytes, req: Request)
    requires UnmarshallRequest(p, data) == Return(req)
    requires Spread(req.args).Some?
    requires req.kwargs.Keys !! DispatchReserved
    requires req.name !in d.funcs
    ensures Reply(p, CaptureAsWritten(p, d, data)) == Escaped(NameError("rpc"))
    ensures Sent(Reply(p, CaptureAsWritten(p, d, data))) == []
  {
  }

  // ---------------------------------------------------------------------------
  // Properties of the client, alone and connected to a server
  // ---------------------------------------------------------------------------

  /** Mixing positional and keyword arguments fails with ProtocolError before anything is sent. */
  lemma MixedArgumentsNeverSent(p: Protocol, transport: Bytes -> Bytes, name: string, args: seq<Json>, kwargs: map<string, Json>)
    requires args != [] && kwargs != map[]
    requires kwargs.Keys !! CallReserved
    ensures Call(p, transport, name, args, kwargs) == Fail(ProtocolError, "Cannot use both positional and keyword arguments")
  {
  }

  /** An empty reply from the transport makes the call return None. */
  lemma EmptyReplyReturnsNone(p: Protocol, transport: Bytes -> Bytes, name: string, args: seq<Json>, kwargs: map<string, Json>)
    requires kwargs.Keys !! CallReserved
    requires MarshallRequest(p, name, args, kwargs).Return?
    requires transport(MarshallRequest(p, name, args, kwargs).value) == []
    ensures Call(p, transport, name, args, kwargs) == Return(Null)
  {
  }

  /** The exception a client raises for an rpc error raised on the server: the
      same kind, with message "<table message>: <data>". */
  function Reconstructed(p: Protocol, e: Error): (r: Error)
    requires e.kind in ERRORS
    ensures r.kind == e.kind
  {
    Error(e.kind, [p.render(Str(ERRORS[e.kind].message)) + ": " + p.render(Data(e))])
  }

  /** A transport that delivers each request to a server with dispatcher `d`
      and brings back whatever that server sends. */
  ghost predicate ConnectsTo(transport: Bytes -> Bytes, p: Protocol, d: Dispatcher)
    reads d
  {
    forall b {:trigger transport(b)} :: transport(b) == Sent(Serve(p, d, b))
  }

  /** End to end: a call with only positional or only keyword arguments,
      through a transport connected to a server, returns exactly what the
      server's dispatcher returns, or raises the dispatcher's error
      reconstructed on the client. */
  lemma RemoteCallReachesHandler(p: Protocol, d: Dispatcher, transport: Bytes -> Bytes,
                                 name: string, args: seq<Json>, kwargs: map<string, Json>)
    requires Lossless(p.serializer)
    requires ConnectsTo(transport, p, d)
    requires args == [] || kwargs == map[]
    requires kwargs.Keys !! CallReserved
    ensures
      var o := d.Dispatch(name, args, kwargs);
      Call(p, transport, name, args, kwargs) ==
        if o.Return? then o
        else if Caught(o.exc) then Raise(RpcError(Reconstructed(p, o.exc.error)))
        else Return(Null)
  {
    RequestRoundTrip(p, name, args, kwargs);
    var request := MarshallRequest(p, name, args, kwargs).value;
    var req := UnmarshallRequest(p, request).value;
    assert Spread(req.args) == Some(args);
    var o := d.Dispatch(name, args, kwargs);
    var c := Capture(p, d, request);
    assert c == AfterDispatch(req, o);
    assert "id" in req.raw;
    if c.Escaping? {
      assert transport(request) == [];
    } else {
      ResponseRoundTrip(p, c.request, c.result, c.error);
    }
  }

  /** Calling a method the server never registered raises MethodNotFoundError
      on the client, with the method name as the error's data. */
  lemma UnknownMethodRaisedAtClient(p: Protocol, d: Dispatcher, transport: Bytes -> Bytes,
                                    name: string, args: seq<Json>, kwargs: map<string, Json>)
    requires Lossless(p.serializer)
    requires ConnectsTo(transport, p, d)
    requires args == [] || kwargs == map[]
    requires kwargs.Keys !! CallReserved
    requires name !in d.funcs
    ensures Call(p, transport, name, args, kwargs) ==
      Raise(RpcError(Error(MethodNotFoundError, [p.render(Str("Method not found")) + ": " + p.render(Arr([Str(name)]))])))
  {
    RemoteCallReachesHandler(p, d, transport, name, args, kwargs);
    assert Data(Error(MethodNotFoundError, [name])) == Arr([Str(name)]);
  }

  /** A handler that raises anything but a TypeError is seen by the client as
      an InternalError, never as its own exception. */
  lemma HandlerFailureSeenAsInternalError(p: Protocol, d: Dispatcher, transport: Bytes -> Bytes,
                                          name: string, args: seq<Json>, kwargs: map<string, Json>)
    requires Lossless(p.serializer)
    requires ConnectsTo(transport, p, d)
    requires args == [] || kwargs == map[]
    requires kwargs.Keys !! CallReserved
    requires name in d.funcs && d.funcs[name].call(args, kwargs).OtherErr?
    ensures Call(p, transport, name, args, kwargs).Raise?
    ensures Call(p, transport, name, args, kwargs).exc.RpcError?
    ensures Call(p, transport, name, args, kwargs).exc.error.kind == InternalError
  {
    RemoteCallReachesHandler(p, d, transport, name, args, kwargs);
  }
}
