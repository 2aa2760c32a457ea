# chroma-mcp-http-server: the JSON-RPC handler, modelled in Dafny

The server exposes a Chroma vector store over HTTP as JSON-RPC. Its only
decision logic is the handler `handle_mcp` (app/routes.py) and the three
pydantic records it validates against (app/mcp_models.py):

- The request body is validated as an `MCPRequest`. `jsonrpc` is a string that
  defaults to "2.0" and is not checked. `id` is a string or an integer. `method`
  is a string. `params` is an object. `id`, `method` and `params` are required.
- `"tools/query"` validates `params` as `MCPQueryParams`: `collection` and
  `query_texts` are required, and `n_results` defaults to 5. The handler then
  calls `get_collection(collection)` and `query(query_texts, n_results)` on the
  handle that call returned. It answers `{jsonrpc: "2.0", id, result}`, where
  `result` is the query's return value, unchanged.
- `"tools/add_texts"` validates `params` as `MCPAddTextsParams`: `collection`,
  `ids` and `documents` are required, and `metadatas` defaults to None. The
  handler then calls `get_or_create_collection(collection)` and
  `add(ids, documents, metadatas)`. It answers with result `"ok"`.
- Any other method raises HTTP 400 "Unknown method". A validation error or an
  exception from the client is not caught.

The project has three modules:

- `Json` (json.dfy) holds the parsed JSON value.
- `McpModels` (mcp_models.dfy) holds the records as datatypes. Each has a total
  decoder that returns the record or the list of field errors, in field order.
  Each also has an encoder, and a round-trip lemma connects the two.
- `Routes` (routes.dfy) holds the handler. `Dispatch` is a pure function of the
  request, a `Backend` and the client's call history. It returns the outcome and
  the client calls made. `ChromaClient` is a class that records each call it
  receives on a trace. The method `HandleMcp` follows the handler's code step by
  step, and its postcondition says it does what `Dispatch` says. The lemmas state
  what the handler promises.

The backend is a parameter. Its answers are functions of the calls it has
already received, so a stateful store (an `add` followed by a `query`) is
covered.

The model follows the code where the repository's tests and prose say
otherwise. The tests expect `initialize`, `notifications/initialized`,
`tools/list`, and `tools/call` with `params.arguments`. They also expect a
JSON-RPC error object with code -32601 for unknown methods, and an optional
`id`. The code has none of these. `McpMethodsAreUnknown` states what the code
does with those methods: HTTP 400 and no backend call.

## Model

| member | source | states |
|---|---|---|
| `McpModels.ItemsFrom` | app/mcp_models.py:12-14 | A list field is accepted exactly when every item has the item type. On success the items are returned in order. On failure every bad item is reported by its index, and no good item is. |
| `McpModels.DecodeQueryParams` | app/mcp_models.py:5-8 | Accepts exactly a string `collection`, a list of strings `query_texts` (possibly empty), and `n_results` that is absent or an integer. The record holds those values, with `n_results` 5 when absent and no range check. A rejection is never empty. |
| `McpModels.DecodeAddTextsParams` | app/mcp_models.py:10-14 | Accepts exactly a string `collection`, string lists `ids` and `documents`, and `metadatas` that is absent, null or a list of objects. There is no check between fields. `metadatas` is None exactly when absent or null. A rejection is never empty. |
| `McpModels.DecodeRequestFields` | app/mcp_models.py:16-20 | Accepts exactly an optional string `jsonrpc`, a string-or-integer `id`, a string `method` and an object `params`. `jsonrpc` is kept as given, or is "2.0" when absent. `id` is kept as the string or integer it was. A rejection is never empty. |
| `McpModels.DecodeRequest` | app/mcp_models.py:16-20 | A body that is not a JSON object is rejected with `NotAnObject`. An object body is accepted exactly when its members are well typed. It decodes as the record of its own members, or is rejected with their non-empty field errors, as `DecodeRequestFields` gives them. |
| `McpModels.QueryParamsErrorsNameFields` | app/mcp_models.py:5-8 | A rejected query record reports `collection` and `query_texts` as missing exactly when they are absent. It reports `n_results` as mistyped exactly when it is present and not an integer, and never as missing. |
| `McpModels.AddTextsParamsErrorsNameFields` | app/mcp_models.py:10-14 | A rejected add-texts record reports `collection`, `ids` and `documents` as missing exactly when they are absent, and never reports `metadatas` as missing. |
| `McpModels.RequestErrorsNameFields` | app/mcp_models.py:16-20 | A rejected request reports `id`, `method` and `params` as missing exactly when they are absent, and never reports `jsonrpc` as missing. |
| `McpModels.StringsRoundTrip` | app/mcp_models.py:7 | Any list of strings is accepted back from its JSON array, unchanged. |
| `McpModels.ObjectsRoundTrip` | app/mcp_models.py:14 | Any list of metadata objects is accepted back from its JSON array, unchanged. |
| `McpModels.QueryParamsRoundTrip` | app/mcp_models.py:5-8 | Every query record decodes back from its JSON form. This covers an empty `query_texts` and any `n_results`, 1000 included. |
| `McpModels.AddTextsParamsRoundTrip` | app/mcp_models.py:10-14 | Every add-texts record decodes back from its JSON form. This covers `ids` and `documents` of different lengths, or both empty, and absent metadata. |
| `McpModels.RequestRoundTrip` | app/mcp_models.py:16-20 | Every request decodes back from its JSON form, with any `jsonrpc` string and with a string or integer `id` kept as given. |
| `McpModels.QueryParamsIgnoreExtraKeys` | app/mcp_models.py:5-8 | A key the query record does not declare does not change the result of decoding. |
| `McpModels.AddTextsParamsIgnoreExtraKeys` | app/mcp_models.py:10-14 | A key the add-texts record does not declare does not change the result of decoding. |
| `Routes.Dispatch` | app/routes.py:23-43 | A success echoes the request `id` with jsonrpc "2.0". The outcome is HTTP 400 "Unknown method" exactly when the method is neither of the two. No client call is made exactly when the outcome is that error or a params validation error. A client call implies the params decoded for the matching method. At most two calls are made. |
| `Routes.Serve` | app/routes.py:21-23 | A body that is not a valid `MCPRequest` is rejected with its field errors, and the handler makes no call. A valid body is never rejected, and its outcome and calls are exactly the ones `Dispatch` gives for the decoded request. |
| `Routes.QueryCallsBackendInOrder` | app/routes.py:24-31 | For "tools/query" with well-typed params, the first call is `get_collection(collection)`. A second call exists exactly when the first returned. It is a `query` on the returned handle with the request's `query_texts`. The request succeeds exactly when that query returns, and its result is the query's return value, unchanged. |
| `Routes.QueryNResultsReachBackend` | app/routes.py:27-30 | The backend's `query` receives the supplied `n_results`, or 5 when the field is absent. |
| `Routes.AddTextsCallsBackendInOrder` | app/routes.py:33-41 | For "tools/add_texts" with well-typed params, the first call is `get_or_create_collection(collection)`. A second call exists exactly when the first returned. It is an `add` on the returned handle with the request's `ids` and `documents`. Its `metadatas` is None exactly when the request's is absent or null. Otherwise it is the request's list of metadata objects, item for item. The request succeeds exactly when `add` returns, and its result is "ok". |
| `Routes.InvalidParamsNeverReachBackend` | app/routes.py:24-35 | For either method, params that do not validate end the request with that record's (non-empty) validation errors, and no client call is made. |
| `Routes.McpMethodsAreUnknown` | app/routes.py:24-43 | `initialize`, `notifications/initialized`, `tools/list` and `tools/call` each give HTTP 400 "Unknown method" and make no client call. |
| `Routes.PathsTouchDisjointOperations` | app/routes.py:26-40 | The query path only calls `get_collection` and `query`. The add path only calls `get_or_create_collection` and `add`. |
| `Routes.FirstFaultEndsRequest` | app/routes.py:26-40 | Every call except the last returned normally. The request fails with a backend fault exactly when its last call raised, and it fails with that same exception. There is no retry and no success envelope after a fault. |
| `Routes.ResponseEchoesId` | app/routes.py:31-41 | A served success has exactly the keys `jsonrpc`, `id` and `result`. Its `jsonrpc` is "2.0" whatever the request said, and its `id` is the body's `id`, unchanged. |
| `Routes.AddTextsEndToEnd` | app/routes.py:33-41 | A body adding document "hello" with id "d1" to collection "c1" leads to exactly `get_or_create_collection("c1")` and then `add(["d1"], ["hello"], None)`, when the store returns from both. It is answered with `{"jsonrpc": "2.0", "id": 1, "result": "ok"}`. |
| `Routes.ChromaClient.GetCollection` | app/routes.py:26 | Appends `get_collection(name)` to the trace and returns the backend's answer for the history before the call. |
| `Routes.ChromaClient.Query` | app/routes.py:27-30 | Appends `query(query_texts, n_results)` on the given handle to the trace and returns the backend's answer. |
| `Routes.ChromaClient.GetOrCreateCollection` | app/routes.py:35 | Appends `get_or_create_collection(name)` to the trace and returns the backend's answer. |
| `Routes.ChromaClient.Add` | app/routes.py:36-40 | Appends `add(ids, documents, metadatas)` on the given handle to the trace and returns the backend's answer. |
| `Routes.HandleMcp` | app/routes.py:21-43 | The handler as written, over a recording client. Its outcome is the one `Dispatch` gives. The client's trace grows by exactly the calls `Dispatch` lists, in order. |

## Left out

- `get_client` (app/routes.py:12-17) is left out. So are app/chromaclient.py and app/config.py: they build a `chromadb.HttpClient` from settings read from the environment, which is foreign code. The client is a parameter instead: a `Backend` behind a `ChromaClient`.
- `sse_stream` (app/routes.py:48-53) is left out: it only streams one fixed event.
- app/main.py is left out: it builds the FastAPI app and starts uvicorn.
- `async` and FastAPI's dependency injection are left out. The handler runs sequentially on the client it is given.
- HTTP status codes are not modelled, except the 400 the handler sets itself. A rejected body (FastAPI's 422), a params validation error and a client exception are three distinct `Outcome` variants.
- What the store does is not modelled: how `add` treats duplicate ids, or which documents `query` finds. The `Backend` functions decide it.
- The query result's contents are not modelled. The result is an opaque `Json` value passed through unchanged.
- A JSON number with a fraction or exponent is a `JNum` holding its exact value. IEEE double rounding is not modelled. Such numbers pass through unchanged in metadata values and in the query result, which holds distances.
- McpModels.DecodeQueryParams: uses pydantic's strict type checks, not its lax coercions. A numeric string, a boolean or a whole-valued fractional number such as `5.0` is rejected as `n_results` with `WrongType`, whereas pydantic would convert it to an integer.
- McpModels.DecodeRequestFields: uses the same strict checks for `id`. A boolean or a `JNum` is rejected, whereas pydantic's union may convert it to an integer.
- McpModels.DecodeRequestFields: reports a mistyped `id` as one `WrongType` error. pydantic reports one error for each member of the union (`id.str` and `id.int`).
- McpModels.ItemsFrom: reports a bad list item by field and index only. pydantic's error type, message and input value are not modelled.
