/** The JSON-RPC 2.0 protocol of jsonrpc.py: the error tables, the serializer,
    and the building and checking of request, response and error objects
    (JSON-RPC 2.0 specification, section 4 "Request object", section 4.1
    "Notification", section 5 "Response object", section 5.1 "Error object").
 */
module JsonRpc {
  import opened JsonValue
  import opened RpcErrors

  // ---------------------------------------------------------------------------
  // The module-level tables ERRORS and EXCEPTIONS
  // ---------------------------------------------------------------------------

  datatype ErrorEntry = ErrorEntry(code: int, message: string)

  /** Error kind to wire code and message. */
  const ERRORS: map<ErrorKind, ErrorEntry> := map[
    ParseError := ErrorEntry(-32700, "Parse Error"),
    InvalidRequestError := ErrorEntry(-32600, "Invalid Request"),
    MethodNotFoundError := ErrorEntry(-32601, "Method not found"),
    InvalidParamsError := ErrorEntry(-32602, "Invalid params"),
    InternalError := ErrorEntry(-32603, "Internal error")
  ]

  /** Wire code to error kind. */
  const EXCEPTIONS: map<int, ErrorKind> := map[
    -32700 := ParseError,
    -32600 := InvalidRequestError,
    -32601 := MethodNotFoundError,
    -32602 := InvalidParamsError,
    -32603 := InternalError
  ]

  /** The two tables list the same five kinds and are inverse to each other. */
  lemma TablesInverse()
    ensures forall k :: k in ERRORS <==> k != InvalidResponseError && k != ProtocolError
    ensures forall k :: k in ERRORS ==> ERRORS[k].code in EXCEPTIONS && EXCEPTIONS[ERRORS[k].code] == k
    ensures forall c :: c in EXCEPTIONS ==> EXCEPTIONS[c] in ERRORS && ERRORS[EXCEPTIONS[c]].code == c
  {
  }

  // ---------------------------------------------------------------------------
  // JSONSerializer and the protocol object
  // ---------------------------------------------------------------------------

  /** `JSONSerializer.encode`: a ValueError of the json library becomes a ParseError. */
  function Encode(c: Codec, v: Json): (r: Outcome<Bytes>)
    ensures r.Return? <==> c.dumps(v).Done?
    ensures r.Return? ==> r.value == c.dumps(v).value
    ensures r.Raise? ==> r.exc == RpcError(Error(ParseError, [c.dumps(v).message]))
  {
    match c.dumps(v)
    case Done(b) => Return(b)
    case ValueError(m) => Fail(ParseError, m)
  }

  /** `JSONSerializer.decode`: a ValueError of the json library becomes a ParseError. */
  function Decode(c: Codec, data: Bytes): (r: Outcome<Json>)
    ensures r.Return? <==> c.loads(data).Done?
    ensures r.Return? ==> r.value == c.loads(data).value
    ensures r.Raise? ==> r.exc == RpcError(Error(ParseError, [c.loads(data).message]))
  {
    match c.loads(data)
    case Done(v) => Return(v)
    case ValueError(m) => Fail(ParseError, m)
  }

  /** With a lossless codec, decoding what was encoded gives the value back. */
  lemma DecodeEncode(c: Codec, v: Json)
    requires Lossless(c)
    ensures Encode(c, v).Return? && Encode(c, v).value != []
    ensures Decode(c, Encode(c, v).value) == Return(v)
  {
    assert c.dumps(v).Done?;
  }

  /** A `JSONRPCProtocol` instance. `serializer` is its JSONSerializer; `render`
      is Python's `%s` conversion of a decoded value, used when an error object
      is turned back into an exception; `errors` is the module-level ERRORS
      dictionary, one object shared by every protocol instance. */
  datatype Protocol = Protocol(serializer: Codec, render: Json -> string, errors: ErrorTable)

  const Version: Json := Str("2.0")

  // ---------------------------------------------------------------------------
  // Requests
  // ---------------------------------------------------------------------------

  /** What `unmarshall_request` returns: the raw request object, the method
      name, the positional arguments (the raw `params` when it is not an
      object) and the keyword arguments. */
  datatype Request = Request(raw: map<string, Json>, name: string, args: Json, kwargs: map<string, Json>)

  /** The request object `marshall_request` builds before encoding it. */
  function RequestObject(name: string, args: seq<Json>, kwargs: map<string, Json>): (r: Outcome<Json>)
    ensures r.Raise? <==> args != [] && kwargs != map[]
    ensures r.Raise? ==> r.exc.RpcError? && r.exc.error.kind == ProtocolError
    ensures r.Return? ==>
      && r.value.Obj?
      && r.value.fields.Keys <= {"jsonrpc", "method", "params", "id"}
      && "jsonrpc" in r.value.fields && r.value.fields["jsonrpc"] == Version
      && "method" in r.value.fields && r.value.fields["method"] == Str(name)
      && "id" in r.value.fields && r.value.fields["id"] == Int(0)
      && ("params" in r.value.fields <==> args != [] || kwargs != map[])
      && (args != [] ==> r.value.fields["params"] == Arr(args))
      && (kwargs != map[] ==> r.value.fields["params"] == Obj(kwargs))
  {
    var req := map["jsonrpc" := Version, "method" := Str(name)];
    if args != [] && kwargs != map[] then
      Fail(ProtocolError, "Cannot use both positional and keyword arguments")
    else
      var req := if args != [] || kwargs != map[] then req["params" := if args != [] then Arr(args) else Obj(kwargs)] else req;
      Return(Obj(req["id" := Int(0)]))
  }

  /** `marshall_request`: build the request object and encode it. */
  function MarshallRequest(p: Protocol, name: string, args: seq<Json>, kwargs: map<string, Json>): (r: Outcome<Bytes>)
    ensures args != [] && kwargs != map[] ==>
      r == Fail(ProtocolError, "Cannot use both positional and keyword arguments")
    ensures r.Raise? ==> r.exc.RpcError? && r.exc.error.kind in {ProtocolError, ParseError}
    ensures r.Return? && Lossless(p.serializer) ==>
      p.serializer.loads(r.value) == Done(RequestObject(name, args, kwargs).value)
  {
    match RequestObject(name, args, kwargs)
    case Raise(e) => Raise(e)
    case Return(req) => Encode(p.serializer, req)
  }

  /** The checks `unmarshall_request` makes on the decoded value, in order. */
  function ValidateRequest(v: Json): (r: Outcome<Request>)
    ensures !v.Obj? ==> r == Raise(TypeError)
    ensures v.Obj? && "jsonrpc" !in v.fields ==>
      r == Fail(InvalidRequestError, "No \"jsonrpc\" member found")
    ensures v.Obj? && "jsonrpc" in v.fields && v.fields["jsonrpc"] != Version ==>
      r == Fail(InvalidRequestError, "Only JSON-RPC 2.0 is supported")
    ensures r.Return? <==>
      && v.Obj?
      && "jsonrpc" in v.fields && v.fields["jsonrpc"] == Version
      && "method" in v.fields && v.fields["method"].Str?
    ensures v.Obj? && r.Raise? ==> r.exc.RpcError? && r.exc.error.kind == InvalidRequestError
    ensures r.Return? ==>
      && r.value.raw == v.fields
      && r.value.name == v.fields["method"].s
      && !r.value.args.Obj?
      && (if "params" in v.fields && v.fields["params"].Obj? then
            r.value.args == Arr([]) && r.value.kwargs == v.fields["params"].fields
          else
            r.value.kwargs == map[] &&
            r.value.args == (if "params" in v.fields then v.fields["params"] else Arr([])))
  {
    if !v.Obj? then
      Raise(TypeError)   // subscripting anything but a dict
    else if "jsonrpc" !in v.fields then
      Fail(InvalidRequestError, "No \"jsonrpc\" member found")
    else if v.fields["jsonrpc"] != Version then
      Fail(InvalidRequestError, "Only JSON-RPC 2.0 is supported")
    else if "method" !in v.fields then
      Fail(InvalidRequestError, "No \"method\" member found")
    else if !v.fields["method"].Str? then
      Fail(InvalidRequestError, "\"method\" member must be string")
    else
      var params := if "params" in v.fields then v.fields["params"] else Arr([]);
      if params.Obj? then
        Return(Request(v.fields, v.fields["method"].s, Arr([]), params.fields))
      else
        Return(Request(v.fields, v.fields["method"].s, params, map[]))
  }

  /** `unmarshall_request`: decode, then validate. */
  function UnmarshallRequest(p: Protocol, data: Bytes): (r: Outcome<Request>)
    ensures p.serializer.loads(data).ValueError? ==>
      r == Fail(ParseError, p.serializer.loads(data).message)
    ensures p.serializer.loads(data).Done? ==> r == ValidateRequest(p.serializer.loads(data).value)
  {
    match Decode(p.serializer, data)
    case Raise(e) => Raise(e)
    case Return(v) => ValidateRequest(v)
  }

  /** A call with only positional or only keyword arguments (or none) survives
      marshalling and unmarshalling: the same method name, the same positional
      arguments and the same keyword arguments come out. */
  lemma RequestRoundTrip(p: Protocol, name: string, args: seq<Json>, kwargs: map<string, Json>)
    requires Lossless(p.serializer)
    requires args == [] || kwargs == map[]
    ensures MarshallRequest(p, name, args, kwargs).Return?
    ensures UnmarshallRequest(p, MarshallRequest(p, name, args, kwargs).value) ==
      Return(Request(RequestObject(name, args, kwargs).value.fields, name, Arr(args), kwargs))
  {
    var req := RequestObject(name, args, kwargs).value;
    DecodeEncode(p.serializer, req);
    if args == [] && kwargs == map[] {
      assert "params" !in req.fields;
    }
  }

  // ---------------------------------------------------------------------------
  // Error objects and the shared ERRORS table
  // ---------------------------------------------------------------------------

  /** `exc.args or None`: the argument tuple as a JSON array, or null when empty. */
  function Data(exc: Error): (d: Json)
    ensures d.Null? <==> exc.args == []
    ensures d.Arr? ==> |d.items| == |exc.args| && forall i :: 0 <= i < |exc.args| ==> d.items[i] == Str(exc.args[i])
  {
    if exc.args == [] then Null else Arr(seq(|exc.args|, i requires 0 <= i < |exc.args| => Str(exc.args[i])))
  }

  /** The error member `marshall_error` produces for an exception: the table's
      code and message plus the exception's data, or null for a kind the table
      does not list. */
  function ErrorObject(exc: Error): (r: Json)
    ensures r.Null? <==> exc.kind !in ERRORS
    ensures r.Obj? ==>
      && r.fields.Keys == {"code", "message", "data"}
      && r.fields["code"] == Int(ERRORS[exc.kind].code)
      && r.fields["message"] == Str(ERRORS[exc.kind].message)
      && r.fields["data"] == Data(exc)
  {
    if exc.kind in ERRORS then
      Obj(map["code" := Int(ERRORS[exc.kind].code), "message" := Str(ERRORS[exc.kind].message), "data" := Data(exc)])
    else
      Null
  }

  /** An entry of the live ERRORS dictionary: the fixed code and message, and
      possibly the `data` the last `marshall_error` left in it. */
  predicate EntryHolds(entry: map<string, Json>, e: ErrorEntry)
  {
    && entry.Keys <= {"code", "message", "data"}
    && "code" in entry && entry["code"] == Int(e.code)
    && "message" in entry && entry["message"] == Str(e.message)
  }

  /** The live table lists the five kinds, each with its fixed code and message. */
  predicate ValidEntries(entries: map<ErrorKind, map<string, Json>>)
  {
    && entries.Keys == ERRORS.Keys
    && forall k :: k in entries ==> EntryHolds(entries[k], ERRORS[k])
  }

  /** The live entries after `marshall_error(exc)` has written its data. */
  function Recorded(entries: map<ErrorKind, map<string, Json>>, exc: Error): (r: map<ErrorKind, map<string, Json>>)
  {
    if exc.kind in entries then entries[exc.kind := entries[exc.kind]["data" := Data(exc)]] else entries
  }

  /** The module-level ERRORS dictionary, whose entries `marshall_error` updates in place. */
  class ErrorTable {
    var entries: map<ErrorKind, map<string, Json>>

    ghost predicate Valid()
      reads this
    {
      ValidEntries(entries)
    }

    constructor ()
      ensures Valid()
      ensures forall k :: k in entries ==> "data" !in entries[k]
    {
      entries := map k | k in ERRORS :: map["code" := Int(ERRORS[k].code), "message" := Str(ERRORS[k].message)];
    }
  }

  /** The live entries after `marshall_error` has run on each exception of `excs` in turn. */
  function RecordAll(entries: map<ErrorKind, map<string, Json>>, excs: seq<Error>): (r: map<ErrorKind, map<string, Json>>)
  {
    if excs == [] then entries else Recorded(RecordAll(entries, excs[..|excs| - 1]), excs[|excs| - 1])
  }

  /** The last exception of kind `k` in `excs`, if any. */
  function LastOfKind(excs: seq<Error>, k: ErrorKind): (r: Option<Error>)
  {
    if excs == [] then None
    else if excs[|excs| - 1].kind == k then Some(excs[|excs| - 1])
    else LastOfKind(excs[..|excs| - 1], k)
  }

  /** One `marshall_error` keeps the table's codes and messages. */
  lemma RecordedKeepsEntries(entries: map<ErrorKind, map<string, Json>>, exc: Error)
    requires ValidEntries(entries)
    ensures ValidEntries(Recorded(entries, exc))
  {
    if exc.kind in entries {
      assert EntryHolds(entries[exc.kind]["data" := Data(exc)], ERRORS[exc.kind]);
    }
  }

  /** The entry `marshall_error` writes is the error object it returns. */
  lemma RecordedEntryIsErrorObject(entries: map<ErrorKind, map<string, Json>>, exc: Error)
    requires ValidEntries(entries)
    ensures exc.kind in entries <==> exc.kind in ERRORS
    ensures exc.kind in entries ==> Obj(entries[exc.kind]["data" := Data(exc)]) == ErrorObject(exc)
  {
    if exc.kind in entries {
      var error := entries[exc.kind]["data" := Data(exc)];
      assert EntryHolds(entries[exc.kind], ERRORS[exc.kind]);
      assert error.Keys == {"code", "message", "data"};
      assert error == ErrorObject(exc).fields;
    }
  }

  /** Any sequence of `marshall_error` calls keeps the table's codes and messages. */
  lemma {:induction false} RecordAllKeepsEntries(entries: map<ErrorKind, map<string, Json>>, excs: seq<Error>)
    requires ValidEntries(entries)
    ensures ValidEntries(RecordAll(entries, excs))
  {
    if excs != [] {
      RecordAllKeepsEntries(entries, excs[..|excs| - 1]);
      RecordedKeepsEntries(RecordAll(entries, excs[..|excs| - 1]), excs[|excs| - 1]);
    }
  }

  /** Because `marshall_error` writes into the shared table, the table
      remembers: after any sequence of calls, each listed kind's entry carries
      the data of the last error of that kind marshalled, or whatever it held
      before if there was none. */
  lemma {:induction false} TableRemembersLastError(entries: map<ErrorKind, map<string, Json>>, excs: seq<Error>, k: ErrorKind)
    requires k in entries
    ensures k in RecordAll(entries, excs)
    ensures RecordAll(entries, excs)[k] ==
      if LastOfKind(excs, k).Some? then entries[k]["data" := Data(LastOfKind(excs, k).value)] else entries[k]
  {
    if excs != [] {
      var prefix, last := excs[..|excs| - 1], excs[|excs| - 1];
      TableRemembersLastError(entries, prefix, k);
      var before := RecordAll(entries, prefix);
      assert RecordAll(entries, excs) == Recorded(before, last);
      if last.kind == k {
        assert RecordAll(entries, excs)[k] == before[k]["data" := Data(last)];
        assert before[k]["data" := Data(last)] == entries[k]["data" := Data(last)];
      } else {
        assert LastOfKind(excs, k) == LastOfKind(prefix, k);
      }
    }
  }

  /** `marshall_error`: look the exception's class up in ERRORS, write its data
      into the shared entry and return that entry; null for an unlisted class.
      The table keeps its codes and messages; the entry keeps the data. */
  method MarshallError(p: Protocol, exc: Error) returns (r: Json)
    requires p.errors.Valid()
    modifies p.errors
    ensures p.errors.Valid()
    ensures r == ErrorObject(exc)
    ensures p.errors.entries == Recorded(old(p.errors.entries), exc)
  {
    var table := p.errors;
    RecordedKeepsEntries(table.entries, exc);
    RecordedEntryIsErrorObject(table.entries, exc);
    if exc.kind in table.entries {
      var error := table.entries[exc.kind];
      error := error["data" := Data(exc)];
      table.entries := table.entries[exc.kind := error];
      r := Obj(error);
    } else {
      r := Null;
    }
  }

  /** Python truth of the `request` argument: present and not an empty dict. */
  predicate Truthy(request: Option<map<string, Json>>)
  {
    request.Some? && request.value != map[]
  }

  /** Whether `marshall_response` answers at all: not for a notification. */
  predicate Responds(request: Option<map<string, Json>>)
  {
    !(Truthy(request) && "id" !in request.value)
  }

  /** The response object `marshall_response` builds, or None for a notification. */
  function ResponseObject(request: Option<map<string, Json>>, result: Json, error: Option<Error>): (r: Option<Json>)
    ensures r.None? <==> Truthy(request) && "id" !in request.value
    ensures r.Some? ==>
      && r.value.Obj?
      && "jsonrpc" in r.value.fields && r.value.fields["jsonrpc"] == Version
      && "id" in r.value.fields
      && r.value.fields["id"] == (if Truthy(request) then request.value["id"] else Null)
      && ("error" in r.value.fields <==> error.Some?)
      && ("result" in r.value.fields <==> error.None?)
      && (error.Some? ==> r.value.fields["error"] == ErrorObject(error.value))
      && (error.None? ==> r.value.fields["result"] == result)
      && |r.value.fields| == 3
  {
    if Truthy(request) && "id" !in request.value then
      None
    else
      var resp := map["jsonrpc" := Version, "id" := if Truthy(request) then request.value["id"] else Null];
      if error.Some? then
        var resp := resp["error" := ErrorObject(error.value)];
        assert resp.Keys == {"jsonrpc", "id", "error"};
        Some(Obj(resp))
      else
        var resp := resp["result" := result];
        assert resp.Keys == {"jsonrpc", "id", "result"};
        Some(Obj(resp))
  }

  /** What `marshall_response` returns: nothing for a notification, else the encoded response. */
  function ResponseBytes(p: Protocol, request: Option<map<string, Json>>, result: Json, error: Option<Error>): (r: Outcome<Option<Bytes>>)
  {
    match ResponseObject(request, result, error)
    case None => Return(None)
    case Some(resp) =>
      match Encode(p.serializer, resp)
      case Raise(e) => Raise(e)
      case Return(b) => Return(Some(b))
  }

  /** `marshall_response`, including the write `marshall_error` makes to the
      shared table when it runs (only for a response that carries an error). */
  method MarshallResponse(p: Protocol, request: Option<map<string, Json>>, result: Json, error: Option<Error>)
    returns (r: Outcome<Option<Bytes>>)
    requires p.errors.Valid()
    modifies p.errors
    ensures p.errors.Valid()
    ensures r == ResponseBytes(p, request, result, error)
    ensures p.errors.entries ==
      if Responds(request) && error.Some? then Recorded(old(p.errors.entries), error.value)
      else old(p.errors.entries)
  {
    if Truthy(request) && "id" !in request.value {
      return Return(None);
    }
    var resp := map["jsonrpc" := Version];
    resp := resp["id" := if Truthy(request) then request.value["id"] else Null];
    if error.Some? {
      var e := MarshallError(p, error.value);
      resp := resp["error" := e];
    } else {
      resp := resp["result" := result];
    }
    assert Some(Obj(resp)) == ResponseObject(request, result, error);
    match Encode(p.serializer, Obj(resp))
    case Raise(e) => r := Raise(e);
    case Return(b) => r := Return(Some(b));
  }

  // ---------------------------------------------------------------------------
  // Responses
  // ---------------------------------------------------------------------------

  /** `unmarshall_error`: the exception an error object stands for. `Return(None)`
      is Python's None for a missing member or an unknown code; a non-object
      error, or a list or object as code (unhashable), raises a TypeError. */
  function UnmarshallError(p: Protocol, error: Json): (r: Outcome<Option<Error>>)
    ensures r.Raise? ==> r.exc == TypeError
    ensures r.Raise? <==>
      || !error.Obj?
      || ("code" in error.fields && "message" in error.fields && "data" in error.fields &&
          (error.fields["code"].Arr? || error.fields["code"].Obj?))
    ensures r.Return? && r.value.Some? ==>
      && error.Obj? && "code" in error.fields && "message" in error.fields && "data" in error.fields
      && r.value.value.kind in ERRORS
      && error.fields["code"] == Int(ERRORS[r.value.value.kind].code)
      && r.value.value.args == [p.render(error.fields["message"]) + ": " + p.render(error.fields["data"])]
    ensures r.Return? && r.value.Some? <==>
      && error.Obj? && "code" in error.fields && "message" in error.fields && "data" in error.fields
      && error.fields["code"].Int? && error.fields["code"].i in EXCEPTIONS
  {
    if !error.Obj? then
      Raise(TypeError)
    else if "code" !in error.fields || "message" !in error.fields || "data" !in error.fields then
      Return(None)
    else
      var code := error.fields["code"];
      var message := p.render(error.fields["message"]) + ": " + p.render(error.fields["data"]);
      if code.Arr? || code.Obj? then
        Raise(TypeError)
      else if code.Int? && code.i in EXCEPTIONS then
        Return(Some(Error(EXCEPTIONS[code.i], [message])))
      else
        Return(None)
  }

  /** Every listed error kind survives the trip through its error object: the
      same kind comes back, with the message "<table message>: <data>". An
      unlisted kind gives a null error member, which cannot be turned back. */
  lemma ErrorRoundTrip(p: Protocol, exc: Error)
    ensures exc.kind in ERRORS ==>
      UnmarshallError(p, ErrorObject(exc)) ==
        Return(Some(Error(exc.kind, [p.render(Str(ERRORS[exc.kind].message)) + ": " + p.render(Data(exc))])))
    ensures exc.kind !in ERRORS ==> UnmarshallError(p, ErrorObject(exc)) == Raise(TypeError)
  {
    TablesInverse();
  }

  /** What `unmarshall_response` returns: the raw response object and its result. */
  datatype Response = Response(raw: map<string, Json>, result: Json)

  /** The checks `unmarshall_response` makes on the decoded value, in order. */
  function ValidateResponse(p: Protocol, v: Json): (r: Outcome<Response>)
    ensures !v.Obj? ==> r == Raise(TypeError)
    ensures v.Obj? && "jsonrpc" !in v.fields ==>
      r == Fail(InvalidResponseError, "No \"jsonrpc\" member in response")
    ensures v.Obj? && "jsonrpc" in v.fields && v.fields["jsonrpc"] != Version ==>
      r == Fail(InvalidResponseError, "Only JSON-RPC 2.0 supported")
    ensures v.Obj? && "jsonrpc" in v.fields && v.fields["jsonrpc"] == Version && "id" !in v.fields ==>
      r == Fail(InvalidResponseError, "No \"id\" member found in response")
    ensures r.Return? <==>
      && v.Obj?
      && "jsonrpc" in v.fields && v.fields["jsonrpc"] == Version
      && "id" in v.fields
      && "error" !in v.fields && "result" in v.fields
    ensures r.Return? ==> r.value == Response(v.fields, v.fields["result"])
    ensures v.Obj? && "jsonrpc" in v.fields && v.fields["jsonrpc"] == Version && "id" in v.fields && "error" in v.fields ==>
      r == match UnmarshallError(p, v.fields["error"])
           case Raise(e) => Raise(e)
           case Return(None) => Raise(TypeError)
           case Return(Some(e)) => Raise(RpcError(e))
    ensures v.Obj? && "jsonrpc" in v.fields && v.fields["jsonrpc"] == Version && "id" in v.fields
            && "error" !in v.fields && "result" !in v.fields ==>
      r == Fail(InvalidResponseError, "No \"result\" or \"error\" member found in response")
  {
    if !v.Obj? then
      Raise(TypeError)
    else if "jsonrpc" !in v.fields then
      Fail(InvalidResponseError, "No \"jsonrpc\" member in response")
    else if v.fields["jsonrpc"] != Version then
      Fail(InvalidResponseError, "Only JSON-RPC 2.0 supported")
    else if "id" !in v.fields then
      Fail(InvalidResponseError, "No \"id\" member found in response")
    else if "error" in v.fields then
      // `raise self.unmarshall_error(...)`: raising None is itself a TypeError
      match UnmarshallError(p, v.fields["error"])
      case Raise(e) => Raise(e)
      case Return(None) => Raise(TypeError)
      case Return(Some(e)) => Raise(RpcError(e))
    else if "result" in v.fields then
      Return(Response(v.fields, v.fields["result"]))
    else
      Fail(InvalidResponseError, "No \"result\" or \"error\" member found in response")
  }

  /** `unmarshall_response`: decode, then validate. */
  function UnmarshallResponse(p: Protocol, data: Bytes): (r: Outcome<Response>)
    ensures p.serializer.loads(data).ValueError? ==>
      r == Fail(ParseError, p.serializer.loads(data).message)
    ensures p.serializer.loads(data).Done? ==> r == ValidateResponse(p, p.serializer.loads(data).value)
  {
    match Decode(p.serializer, data)
    case Raise(e) => Raise(e)
    case Return(v) => ValidateResponse(p, v)
  }

  /** A response built by `marshall_response` reads back as what it carried: the
      result, or the error reconstructed by kind and "<message>: <data>". */
  lemma ResponseRoundTrip(p: Protocol, request: Option<map<string, Json>>, result: Json, error: Option<Error>)
    requires Lossless(p.serializer)
    requires Responds(request)
    requires error.Some? ==> error.value.kind in ERRORS
    ensures ResponseBytes(p, request, result, error).Return?
    ensures ResponseBytes(p, request, result, error).value.Some?
    ensures UnmarshallResponse(p, ResponseBytes(p, request, result, error).value.value) ==
      if error.None? then Return(Response(ResponseObject(request, result, error).value.fields, result))
      else Raise(RpcError(Error(error.value.kind,
             [p.render(Str(ERRORS[error.value.kind].message)) + ": " + p.render(Data(error.value))])))
  {
    var resp := ResponseObject(request, result, error).value;
    DecodeEncode(p.serializer, resp);
    if error.Some? {
      ErrorRoundTrip(p, error.value);
    }
  }
}
