/** The JSON-RPC handler `handle_mcp` of app/routes.py.

    The handler is given a validated MCPRequest and a chromadb client. It
    matches the method name against "tools/query" and "tools/add_texts",
    validates `params` against the matching record, makes the two client calls
    of that method, and returns a JSON-RPC success envelope; any other method
    is an HTTP 400 "Unknown method". A validation error and any exception of
    the client are not caught.

    The client is a recording stand-in: every call it receives is appended to a
    trace, and what it answers is decided by a `Backend`, a function of the
    calls it has already seen. `Dispatch` is the handler as a function of the
    request, the backend and the trace so far; `HandleMcp` is the handler as
    written, over a `ChromaClient` object, proved to behave as `Dispatch` says. */
module Routes {
  import opened Json
  import opened McpModels

  const QueryMethod: string := "tools/query"
  const AddTextsMethod: string := "tools/add_texts"
  const JsonRpcVersion: string := "2.0"
  const UnknownMethodStatus: int := 400
  const UnknownMethodDetail: string := "Unknown method"
  const AddTextsResult: Json := JStr("ok")

  /** A collection handle as the client hands it out; opaque to the handler. */
  datatype Collection = Collection(handle: nat)

  /** An exception raised by the client, whatever its message. */
  datatype Fault = Fault(message: string)

  /** What one client call did: returned a value or raised. */
  datatype Reply<T> = Returned(value: T) | Raised(fault: Fault)

  /** One call the handler makes on the client or on a collection it got from it. */
  datatype Call =
    | GetCollection(name: string)
    | GetOrCreateCollection(name: string)
    | Query(collection: Collection, queryTexts: seq<string>, nResults: int)
    | Add(collection: Collection, ids: seq<string>, documents: seq<string>, metadatas: Option<seq<Metadata>>)

  /** The remote store's answers, each a function of the calls it has already
      received (its history) and of the call's arguments. */
  datatype Backend = Backend(
    getCollection: (seq<Call>, string) -> Reply<Collection>,
    getOrCreateCollection: (seq<Call>, string) -> Reply<Collection>,
    query: (seq<Call>, Collection, seq<string>, int) -> Reply<Json>,
    add: (seq<Call>, Collection, seq<string>, seq<string>, Option<seq<Metadata>>) -> Reply<()>)

  /** How one request ends. */
  datatype Outcome =
    | Response(jsonrpc: string, id: RequestId, result: Json)  // the JSON-RPC success envelope
    | HttpError(status: int, detail: string)                  // the HTTPException the handler raises
    | ParamsInvalid(errors: seq<FieldError>)                  // ValidationError from the params record
    | BackendFailed(fault: Fault)                             // an exception of the client, propagated
    | RequestRejected(errors: seq<FieldError>)                // the body is not an MCPRequest; the handler never runs

  /** An outcome together with the client calls made on the way to it. */
  datatype Run = Run(outcome: Outcome, calls: seq<Call>)

  predicate IsCollectionLookup(c: Call)
  {
    c.GetCollection? || c.Query?
  }

  predicate IsCollectionWrite(c: Call)
  {
    c.GetOrCreateCollection? || c.Add?
  }

  /** `handle_mcp` for a validated request, with the client's history `h`. */
  function Dispatch(req: McpRequest, b: Backend, h: seq<Call>): (r: Run)
    ensures r.outcome.Response? ==> r.outcome.jsonrpc == JsonRpcVersion && r.outcome.id == req.id
    ensures r.outcome.HttpError? <==> req.methodName != QueryMethod && req.methodName != AddTextsMethod
    ensures r.outcome.HttpError? ==> r.outcome == HttpError(UnknownMethodStatus, UnknownMethodDetail)
    ensures r.calls == [] <==> r.outcome.HttpError? || r.outcome.ParamsInvalid?
    ensures r.calls != [] ==>
              || (req.methodName == QueryMethod && DecodeQueryParams(req.params).Ok?)
              || (req.methodName == AddTextsMethod && DecodeAddTextsParams(req.params).Ok?)
    ensures |r.calls| <= 2
    ensures !r.outcome.RequestRejected?
  {
    if req.methodName == QueryMethod then
      match DecodeQueryParams(req.params)
      case Rejected(errs) => Run(ParamsInvalid(errs), [])
      case Ok(p) =>
        var lookup := GetCollection(p.collection);
        match b.getCollection(h, p.collection)
        case Raised(f) => Run(BackendFailed(f), [lookup])
        case Returned(col) =>
          var query := Query(col, p.queryTexts, p.nResults);
          match b.query(h + [lookup], col, p.queryTexts, p.nResults)
          case Raised(f) => Run(BackendFailed(f), [lookup, query])
          case Returned(res) => Run(Response(JsonRpcVersion, req.id, res), [lookup, query])
    else if req.methodName == AddTextsMethod then
      match DecodeAddTextsParams(req.params)
      case Rejected(errs) => Run(ParamsInvalid(errs), [])
      case Ok(p) =>
        var obtain := GetOrCreateCollection(p.collection);
        match b.getOrCreateCollection(h, p.collection)
        case Raised(f) => Run(BackendFailed(f), [obtain])
        case Returned(col) =>
          var add := Add(col, p.ids, p.documents, p.metadatas);
          match b.add(h + [obtain], col, p.ids, p.documents, p.metadatas)
          case Raised(f) => Run(BackendFailed(f), [obtain, add])
          case Returned(_) => Run(Response(JsonRpcVersion, req.id, AddTextsResult), [obtain, add])
    else
      Run(HttpError(UnknownMethodStatus, UnknownMethodDetail), [])
  }

  /** A POST to "/" or "/mcp": the body is validated as an MCPRequest before
      the handler runs, and a body that is not one never reaches it. */
  function Serve(body: Json, b: Backend, h: seq<Call>): (r: Run)
    ensures DecodeRequest(body).Rejected? ==> r == Run(RequestRejected(DecodeRequest(body).errors), [])
    ensures DecodeRequest(body).Ok? ==> r == Dispatch(DecodeRequest(body).value, b, h)
  {
    match DecodeRequest(body)
    case Rejected(errs) => Run(RequestRejected(errs), [])
    case Ok(req) => Dispatch(req, b, h)
  }

  /** The JSON body of a success envelope. */
  function ResponseJson(o: Outcome): Json
    requires o.Response?
  {
    JObj(map["jsonrpc" := JStr(o.jsonrpc), "id" := IdJson(o.id), "result" := o.result])
  }

  // ---------------------------------------------------------------------------
  // What the handler promises
  // ---------------------------------------------------------------------------

  function FaultOf<T>(r: Reply<T>): Option<Fault>
  {
    if r.Raised? then Some(r.fault) else None
  }

  /** The exception, if any, that the backend raises for call `c` after history `h`. */
  function RaisedBy(b: Backend, h: seq<Call>, c: Call): Option<Fault>
  {
    match c
    case GetCollection(name) => FaultOf(b.getCollection(h, name))
    case GetOrCreateCollection(name) => FaultOf(b.getOrCreateCollection(h, name))
    case Query(col, texts, n) => FaultOf(b.query(h, col, texts, n))
    case Add(col, ids, docs, metas) => FaultOf(b.add(h, col, ids, docs, metas))
  }

  /** A "tools/query" request with well-typed params makes exactly
      `get_collection(collection)` and then, on the handle that call returned,
      `query(query_texts, n_results)`; it succeeds exactly when both return,
      and its result is the query's return value, unchanged. */
  lemma QueryCallsBackendInOrder(req: McpRequest, b: Backend, h: seq<Call>)
    requires req.methodName == QueryMethod && QueryArgsWellTyped(req.params)
    ensures var r := Dispatch(req, b, h);
      && 1 <= |r.calls| <= 2
      && r.calls[0] == GetCollection(req.params["collection"].s)
      && (|r.calls| == 2 <==> b.getCollection(h, r.calls[0].name).Returned?)
      && (|r.calls| == 2 ==>
            && r.calls[1].Query?
            && r.calls[1].collection == b.getCollection(h, r.calls[0].name).value
            && JArr(Strings(r.calls[1].queryTexts)) == req.params["query_texts"])
      && (r.outcome.Response? <==>
            |r.calls| == 2 && b.query(h + r.calls[..1], r.calls[1].collection, r.calls[1].queryTexts, r.calls[1].nResults).Returned?)
      && (r.outcome.Response? ==>
            r.outcome.result == b.query(h + r.calls[..1], r.calls[1].collection, r.calls[1].queryTexts, r.calls[1].nResults).value)
  {
    var p := DecodeQueryParams(req.params).value;
    var r := Dispatch(req, b, h);
    assert r.calls[..1] == [GetCollection(p.collection)];
  }

  /** The backend's query gets the supplied `n_results`, and 5 when the field is absent. */
  lemma QueryNResultsReachBackend(req: McpRequest, b: Backend, h: seq<Call>)
    requires req.methodName == QueryMethod && QueryArgsWellTyped(req.params)
    ensures forall c :: c in Dispatch(req, b, h).calls && c.Query? ==>
              c.nResults == if "n_results" in req.params then req.params["n_results"].i else 5
  {
  }

  /** A "tools/add_texts" request with well-typed params makes exactly
      `get_or_create_collection(collection)` and then, on the handle that call
      returned, `add(ids, documents, metadatas)`, with `metadatas` None when
      absent or null; it succeeds exactly when both return, with result "ok". */
  lemma AddTextsCallsBackendInOrder(req: McpRequest, b: Backend, h: seq<Call>)
    requires req.methodName == AddTextsMethod && AddTextsArgsWellTyped(req.params)
    ensures var r := Dispatch(req, b, h);
      && 1 <= |r.calls| <= 2
      && r.calls[0] == GetOrCreateCollection(req.params["collection"].s)
      && (|r.calls| == 2 <==> b.getOrCreateCollection(h, r.calls[0].name).Returned?)
      && (|r.calls| == 2 ==>
            && r.calls[1].Add?
            && r.calls[1].collection == b.getOrCreateCollection(h, r.calls[0].name).value
            && JArr(Strings(r.calls[1].ids)) == req.params["ids"]
            && JArr(Strings(r.calls[1].documents)) == req.params["documents"]
            && (r.calls[1].metadatas.None? <==> "metadatas" !in req.params || req.params["metadatas"] == JNull)
            && (r.calls[1].metadatas.Some? ==> req.params["metadatas"] == JArr(Objects(r.calls[1].metadatas.value))))
      && (r.outcome.Response? <==>
            |r.calls| == 2
            && b.add(h + r.calls[..1], r.calls[1].collection, r.calls[1].ids, r.calls[1].documents, r.calls[1].metadatas).Returned?)
      && (r.outcome.Response? ==> r.outcome.result == JStr("ok"))
  {
    var p := DecodeAddTextsParams(req.params).value;
    var r := Dispatch(req, b, h);
    assert r.calls[..1] == [GetOrCreateCollection(p.collection)];
  }

  /** Params that do not validate against the method's record end the request
      with that validation error before any client call. */
  lemma InvalidParamsNeverReachBackend(req: McpRequest, b: Backend, h: seq<Call>)
    requires || (req.methodName == QueryMethod && !QueryArgsWellTyped(req.params))
             || (req.methodName == AddTextsMethod && !AddTextsArgsWellTyped(req.params))
    ensures var r := Dispatch(req, b, h);
      && r.calls == []
      && r.outcome.ParamsInvalid?
      && r.outcome.errors != []
      && r.outcome.errors == (if req.methodName == QueryMethod then DecodeQueryParams(req.params).errors
                              else DecodeAddTextsParams(req.params).errors)
  {
  }

  /** The MCP lifecycle and tool methods have no branch in the handler: each
      is an HTTP 400 "Unknown method", with no client call. */
  lemma McpMethodsAreUnknown(req: McpRequest, b: Backend, h: seq<Call>)
    requires req.methodName in ["initialize", "notifications/initialized", "tools/list", "tools/call"]
    ensures Dispatch(req, b, h) == Run(HttpError(400, "Unknown method"), [])
  {
  }

  /** The query path only reads collections and the add path only writes them. */
  lemma PathsTouchDisjointOperations(req: McpRequest, b: Backend, h: seq<Call>)
    ensures req.methodName == QueryMethod ==> forall c :: c in Dispatch(req, b, h).calls ==> IsCollectionLookup(c)
    ensures req.methodName == AddTextsMethod ==> forall c :: c in Dispatch(req, b, h).calls ==> IsCollectionWrite(c)
  {
  }

  /** Every call but the last returned normally, and the request failed exactly
      when its last call raised, with that exception: no retry, no fallback. */
  lemma FirstFaultEndsRequest(req: McpRequest, b: Backend, h: seq<Call>)
    ensures var r := Dispatch(req, b, h);
      && (forall i :: 0 <= i < |r.calls| - 1 ==> RaisedBy(b, h + r.calls[..i], r.calls[i]).None?)
      && (r.outcome.BackendFailed? <==>
            r.calls != [] && RaisedBy(b, h + r.calls[..|r.calls| - 1], r.calls[|r.calls| - 1]).Some?)
      && (r.outcome.BackendFailed? ==>
            RaisedBy(b, h + r.calls[..|r.calls| - 1], r.calls[|r.calls| - 1]) == Some(r.outcome.fault))
  {
    var r := Dispatch(req, b, h);
    assert h + [] == h;
    if |r.calls| == 2 {
      assert r.calls[..1] == [r.calls[0]];
    }
  }

  /** A served success carries jsonrpc "2.0" whatever the request said, and
      the request's id exactly as it came in the body. */
  lemma ResponseEchoesId(body: Json, b: Backend, h: seq<Call>)
    requires Serve(body, b, h).outcome.Response?
    ensures body.JObj? && "id" in body.fields
    ensures ResponseJson(Serve(body, b, h).outcome).fields["id"] == body.fields["id"]
    ensures ResponseJson(Serve(body, b, h).outcome).fields["jsonrpc"] == JStr("2.0")
    ensures ResponseJson(Serve(body, b, h).outcome).fields.Keys == {"jsonrpc", "id", "result"}
  {
  }

  /** One request end to end: a body adding the document "hello" under id "d1"
      to collection "c1", against a store whose two calls return, makes exactly
      those two calls and is answered with {"jsonrpc": "2.0", "id": 1, "result": "ok"}. */
  lemma AddTextsEndToEnd(b: Backend, h: seq<Call>)
    requires b.getOrCreateCollection(h, "c1").Returned?
    requires var col := b.getOrCreateCollection(h, "c1").value;
      b.add(h + [GetOrCreateCollection("c1")], col, ["d1"], ["hello"], None).Returned?
    ensures var body := JObj(map[
              "jsonrpc" := JStr("2.0"), "id" := JInt(1), "method" := JStr("tools/add_texts"),
              "params" := JObj(map["collection" := JStr("c1"), "ids" := JArr([JStr("d1")]),
                                   "documents" := JArr([JStr("hello")])])]);
      var r := Serve(body, b, h);
      && r.calls == [GetOrCreateCollection("c1"), Add(b.getOrCreateCollection(h, "c1").value, ["d1"], ["hello"], None)]
      && r.outcome.Response?
      && ResponseJson(r.outcome) == JObj(map["jsonrpc" := JStr("2.0"), "id" := JInt(1), "result" := JStr("ok")])
  {
    var params := map["collection" := JStr("c1"), "ids" := JArr([JStr("d1")]), "documents" := JArr([JStr("hello")])];
    assert AddTextsArgsWellTyped(params);
    var p := DecodeAddTextsParams(params).value;
    assert Strings(p.ids) == [JStr("d1")] && Strings(p.documents) == [JStr("hello")];
    assert p.ids == ["d1"] by { assert |p.ids| == 1 && Strings(p.ids)[0] == JStr(p.ids[0]); }
    assert p.documents == ["hello"] by { assert |p.documents| == 1 && Strings(p.documents)[0] == JStr(p.documents[0]); }
  }

  // ---------------------------------------------------------------------------
  // The client and the handler as written
  // ---------------------------------------------------------------------------

  /** The chromadb client handed to the handler, recording every call. The
      collection methods `col.query` and `col.add` are recorded here too, on
      the handle they were called on. */
  class ChromaClient {
    const backend: Backend
    var trace: seq<Call>

    constructor (backend: Backend)
      ensures this.backend == backend && trace == []
    {
      this.backend := backend;
      trace := [];
    }

    method GetCollection(name: string) returns (r: Reply<Collection>)
      modifies this
      ensures trace == old(trace) + [Call.GetCollection(name)]
      ensures r == backend.getCollection(old(trace), name)
    {
      r := backend.getCollection(trace, name);
      trace := trace + [Call.GetCollection(name)];
    }

    method GetOrCreateCollection(name: string) returns (r: Reply<Collection>)
      modifies this
      ensures trace == old(trace) + [Call.GetOrCreateCollection(name)]
      ensures r == backend.getOrCreateCollection(old(trace), name)
    {
      r := backend.getOrCreateCollection(trace, name);
      trace := trace + [Call.GetOrCreateCollection(name)];
    }

    /** `col.query(query_texts=…, n_results=…)` */
    method Query(col: Collection, queryTexts: seq<string>, nResults: int) returns (r: Reply<Json>)
      modifies this
      ensures trace == old(trace) + [Call.Query(col, queryTexts, nResults)]
      ensures r == backend.query(old(trace), col, queryTexts, nResults)
    {
      r := backend.query(trace, col, queryTexts, nResults);
      trace := trace + [Call.Query(col, queryTexts, nResults)];
    }

    /** `col.add(ids=…, documents=…, metadatas=…)` */
    method Add(col: Collection, ids: seq<string>, documents: seq<string>, metadatas: Option<seq<Metadata>>)
      returns (r: Reply<()>)
      modifies this
      ensures trace == old(trace) + [Call.Add(col, ids, documents, metadatas)]
      ensures r == backend.add(old(trace), col, ids, documents, metadatas)
    {
      r := backend.add(trace, col, ids, documents, metadatas);
      trace := trace + [Call.Add(col, ids, documents, metadatas)];
    }
  }

  /** `handle_mcp`: returns what `Dispatch` says and leaves on the client's
      trace exactly the calls `Dispatch` lists. */
  method HandleMcp(req: McpRequest, client: ChromaClient) returns (out: Outcome)
    modifies client
    ensures out == Dispatch(req, client.backend, old(client.trace)).outcome
    ensures client.trace == old(client.trace) + Dispatch(req, client.backend, old(client.trace)).calls
  {
    if req.methodName == QueryMethod {
      var params := DecodeQueryParams(req.params);
      if params.Rejected? {
        return ParamsInvalid(params.errors);
      }
      var col := client.GetCollection(params.value.collection);
      if col.Raised? {
        return BackendFailed(col.fault);
      }
      var res := client.Query(col.value, params.value.queryTexts, params.value.nResults);
      if res.Raised? {
        return BackendFailed(res.fault);
      }
      return Response(JsonRpcVersion, req.id, res.value);
    }

    if req.methodName == AddTextsMethod {
      var params := DecodeAddTextsParams(req.params);
      if params.Rejected? {
        return ParamsInvalid(params.errors);
      }
      var col := client.GetOrCreateCollection(params.value.collection);
      if col.Raised? {
        return BackendFailed(col.fault);
      }
      var done := client.Add(col.value, params.value.ids, params.value.documents, params.value.metadatas);
      if done.Raised? {
        return BackendFailed(done.fault);
      }
      return Response(JsonRpcVersion, req.id, AddTextsResult);
    }

    return HttpError(UnknownMethodStatus, UnknownMethodDetail);
  }
}
