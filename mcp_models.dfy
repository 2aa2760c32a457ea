/** The three pydantic records of app/mcp_models.py, as datatypes with total
    decoders. A decoder looks at the declared fields only (pydantic's default
    ignores extra keys), checks every field, and either builds the record or
    reports the offending fields in the order they are declared: one error per
    absent or mistyped field, and one per mistyped item of a list field. Type
    checks are strict: a JSON number with a fraction or exponent is never an
    integer, and a boolean is neither an integer nor a string. */
module McpModels {
  import opened Json

  /** One entry of a validation error: where it is and what kind it is. */
  datatype FieldError =
    | Missing(field: string)                  // a required field is absent
    | WrongType(field: string)                // the field's value has the wrong JSON type
    | WrongItem(field: string, index: nat)    // one item of a list field has the wrong type
    | NotAnObject                             // the request body itself is not a JSON object

  /** The outcome of validating input against a record: the record, or every error found. */
  datatype Decoded<T> = Ok(value: T) | Rejected(errors: seq<FieldError>)

  function ErrorsOf<T>(d: Decoded<T>): seq<FieldError>
  {
    if d.Ok? then [] else d.errors
  }

  type Metadata = JsonObject

  /** MCPQueryParams */
  datatype QueryParams = QueryParams(collection: string, queryTexts: seq<string>, nResults: int)

  /** MCPAddTextsParams; `metadatas` is None when the field is absent or null. */
  datatype AddTextsParams = AddTextsParams(
    collection: string,
    ids: seq<string>,
    documents: seq<string>,
    metadatas: Option<seq<Metadata>>)

  /** The `Union[str, int]` request identifier, kept as given. */
  datatype RequestId = StrId(s: string) | IntId(n: int)

  /** MCPRequest */
  datatype McpRequest = McpRequest(jsonrpc: string, id: RequestId, methodName: string, params: JsonObject)

  const DefaultNResults: int := 5
  const DefaultJsonRpc: string := "2.0"

  // ---------------------------------------------------------------------------
  // Field types
  // ---------------------------------------------------------------------------

  function AsString(j: Json): Option<string>
  {
    if j.JStr? then Some(j.s) else None
  }

  function AsObject(j: Json): Option<Metadata>
  {
    if j.JObj? then Some(j.fields) else None
  }

  /** Validates the items of a list field from position `k` on with `conv`. It
      succeeds exactly when every such item converts, and then returns the
      converted items in order; otherwise it names every item that does not
      convert, and no other. */
  function ItemsFrom<T>(field: string, items: seq<Json>, k: nat, conv: Json -> Option<T>): (r: Decoded<seq<T>>)
    requires k <= |items|
    ensures r.Ok? <==> forall i :: k <= i < |items| ==> conv(items[i]).Some?
    ensures r.Ok? ==> |r.value| == |items| - k && forall i :: k <= i < |items| ==> conv(items[i]) == Some(r.value[i - k])
    ensures r.Rejected? ==> r.errors != []
    ensures r.Rejected? ==> forall e :: e in r.errors ==>
              e.WrongItem? && e.field == field && k <= e.index < |items| && conv(items[e.index]).None?
    ensures forall i :: k <= i < |items| && conv(items[i]).None? ==> r.Rejected? && WrongItem(field, i) in r.errors
    decreases |items| - k
  {
    if k == |items| then Ok([])
    else
      var rest := ItemsFrom(field, items, k + 1, conv);
      match conv(items[k])
      case Some(x) => if rest.Ok? then Ok([x] + rest.value) else rest
      case None => Rejected([WrongItem(field, k)] + ErrorsOf(rest))
  }

  /** Validates every item of a list field with `conv`. */
  function ItemsOf<T>(field: string, items: seq<Json>, conv: Json -> Option<T>): Decoded<seq<T>>
  {
    ItemsFrom(field, items, 0, conv)
  }

  /** What a successful item check says about the JSON array it read. */
  lemma StringItemsAre(name: string, items: seq<Json>, xs: seq<string>)
    requires ItemsOf(name, items, AsString) == Ok(xs)
    ensures items == Strings(xs)
  {
  }

  lemma ObjectItemsAre(name: string, items: seq<Json>, ms: seq<Metadata>)
    requires ItemsOf(name, items, AsObject) == Ok(ms)
    ensures items == Objects(ms)
  {
  }

  /** `name: str`, required. */
  function RequiredString(args: JsonObject, name: string): (r: Decoded<string>)
    ensures r.Ok? <==> name in args && args[name].JStr?
    ensures r.Ok? ==> args[name] == JStr(r.value)
    ensures r.Rejected? ==> r.errors == [if name in args then WrongType(name) else Missing(name)]
  {
    if name !in args then Rejected([Missing(name)])
    else match args[name]
      case JStr(s) => Ok(s)
      case _ => Rejected([WrongType(name)])
  }

  /** `name: str = default`. */
  function StringOr(args: JsonObject, name: string, default: string): (r: Decoded<string>)
    ensures r.Ok? <==> name !in args || args[name].JStr?
    ensures r.Ok? ==> r.value == if name in args then args[name].s else default
    ensures r.Rejected? ==> r.errors == [WrongType(name)]
  {
    if name !in args then Ok(default)
    else match args[name]
      case JStr(s) => Ok(s)
      case _ => Rejected([WrongType(name)])
  }

  /** `name: int = default`; an explicit null is not an int. */
  function IntOr(args: JsonObject, name: string, default: int): (r: Decoded<int>)
    ensures r.Ok? <==> name !in args || args[name].JInt?
    ensures r.Ok? ==> r.value == if name in args then args[name].i else default
    ensures r.Rejected? ==> r.errors == [WrongType(name)]
  {
    if name !in args then Ok(default)
    else match args[name]
      case JInt(n) => Ok(n)
      case _ => Rejected([WrongType(name)])
  }

  /** `name: List[str]`, required. */
  function RequiredStringList(args: JsonObject, name: string): (r: Decoded<seq<string>>)
    ensures r.Ok? <==> name in args && IsStringArray(args[name])
    ensures r.Ok? ==> args[name] == JArr(Strings(r.value))
    ensures r.Rejected? ==> r.errors != [] && (Missing(name) in r.errors <==> name !in args)
    ensures r.Rejected? ==> forall e :: e in r.errors ==> !e.NotAnObject? && e.field == name
  {
    if name !in args then Rejected([Missing(name)])
    else match args[name]
      case JArr(items) =>
        var r := ItemsOf(name, items, AsString);
        if r.Ok? then StringItemsAre(name, items, r.value); r else r
      case _ => Rejected([WrongType(name)])
  }

  /** `name: Optional[List[Dict[str, Any]]] = None`. */
  function OptionalObjectList(args: JsonObject, name: string): (r: Decoded<Option<seq<Metadata>>>)
    ensures r.Ok? <==> name !in args || args[name] == JNull || IsObjectArray(args[name])
    ensures r.Ok? ==> (r.value.None? <==> name !in args || args[name] == JNull)
    ensures r.Ok? && r.value.Some? ==> args[name] == JArr(Objects(r.value.value))
    ensures r.Rejected? ==> r.errors != [] && forall e :: e in r.errors ==> e.WrongItem? || e == WrongType(name)
  {
    if name !in args then Ok(None)
    else match args[name]
      case JNull => Ok(None)
      case JArr(items) =>
        (match ItemsOf(name, items, AsObject)
         case Ok(ms) => ObjectItemsAre(name, items, ms); Ok(Some(ms))
         case Rejected(errs) => Rejected(errs))
      case _ => Rejected([WrongType(name)])
  }

  /** `name: Union[str, int]`, required. */
  function RequiredId(args: JsonObject, name: string): (r: Decoded<RequestId>)
    ensures r.Ok? <==> name in args && (args[name].JStr? || args[name].JInt?)
    ensures r.Ok? ==> args[name] == IdJson(r.value)
    ensures r.Rejected? ==> r.errors == [if name in args then WrongType(name) else Missing(name)]
  {
    if name !in args then Rejected([Missing(name)])
    else match args[name]
      case JStr(s) => Ok(StrId(s))
      case JInt(n) => Ok(IntId(n))
      case _ => Rejected([WrongType(name)])
  }

  /** `name: Dict[str, Any]`, required. */
  function RequiredObject(args: JsonObject, name: string): (r: Decoded<JsonObject>)
    ensures r.Ok? <==> name in args && args[name].JObj?
    ensures r.Ok? ==> args[name] == JObj(r.value)
    ensures r.Rejected? ==> r.errors == [if name in args then WrongType(name) else Missing(name)]
  {
    if name !in args then Rejected([Missing(name)])
    else match args[name]
      case JObj(m) => Ok(m)
      case _ => Rejected([WrongType(name)])
  }

  // ---------------------------------------------------------------------------
  // Which inputs each record accepts, stated independently of the decoders
  // ---------------------------------------------------------------------------

  predicate IsStringArray(j: Json)
  {
    j.JArr? && forall i :: 0 <= i < |j.items| ==> j.items[i].JStr?
  }

  predicate IsObjectArray(j: Json)
  {
    j.JArr? && forall i :: 0 <= i < |j.items| ==> j.items[i].JObj?
  }

  predicate QueryArgsWellTyped(args: JsonObject)
  {
    && "collection" in args && args["collection"].JStr?
    && "query_texts" in args && IsStringArray(args["query_texts"])
    && ("n_results" in args ==> args["n_results"].JInt?)
  }

  predicate AddTextsArgsWellTyped(args: JsonObject)
  {
    && "collection" in args && args["collection"].JStr?
    && "ids" in args && IsStringArray(args["ids"])
    && "documents" in args && IsStringArray(args["documents"])
    && ("metadatas" in args ==> args["metadatas"] == JNull || IsObjectArray(args["metadatas"]))
  }

  predicate RequestWellTyped(fields: JsonObject)
  {
    && ("jsonrpc" in fields ==> fields["jsonrpc"].JStr?)
    && "id" in fields && (fields["id"].JStr? || fields["id"].JInt?)
    && "method" in fields && fields["method"].JStr?
    && "params" in fields && fields["params"].JObj?
  }

  // ---------------------------------------------------------------------------
  // The records' decoders
  // ---------------------------------------------------------------------------

  /** `MCPQueryParams(**args)` */
  function DecodeQueryParams(args: JsonObject): (r: Decoded<QueryParams>)
    ensures r.Ok? <==> QueryArgsWellTyped(args)
    ensures r.Ok? ==>
              && args["collection"] == JStr(r.value.collection)
              && args["query_texts"] == JArr(Strings(r.value.queryTexts))
              && r.value.nResults == (if "n_results" in args then args["n_results"].i else DefaultNResults)
    ensures r.Rejected? ==> r.errors != []
  {
    var collection := RequiredString(args, "collection");
    var queryTexts := RequiredStringList(args, "query_texts");
    var nResults := IntOr(args, "n_results", DefaultNResults);
    if collection.Ok? && queryTexts.Ok? && nResults.Ok? then
      Ok(QueryParams(collection.value, queryTexts.value, nResults.value))
    else
      Rejected(ErrorsOf(collection) + ErrorsOf(queryTexts) + ErrorsOf(nResults))
  }

  /** `MCPAddTextsParams(**args)` */
  function DecodeAddTextsParams(args: JsonObject): (r: Decoded<AddTextsParams>)
    ensures r.Ok? <==> AddTextsArgsWellTyped(args)
    ensures r.Ok? ==>
              && args["collection"] == JStr(r.value.collection)
              && args["ids"] == JArr(Strings(r.value.ids))
              && args["documents"] == JArr(Strings(r.value.documents))
              && (r.value.metadatas.None? <==> "metadatas" !in args || args["metadatas"] == JNull)
              && (r.value.metadatas.Some? ==> args["metadatas"] == JArr(Objects(r.value.metadatas.value)))
    ensures r.Rejected? ==> r.errors != []
  {
    var collection := RequiredString(args, "collection");
    var ids := RequiredStringList(args, "ids");
    var documents := RequiredStringList(args, "documents");
    var metadatas := OptionalObjectList(args, "metadatas");
    if collection.Ok? && ids.Ok? && documents.Ok? && metadatas.Ok? then
      Ok(AddTextsParams(collection.value, ids.value, documents.value, metadatas.value))
    else
      Rejected(ErrorsOf(collection) + ErrorsOf(ids) + ErrorsOf(documents) + ErrorsOf(metadatas))
  }

  /** The JSON form of a request identifier. */
  function IdJson(id: RequestId): Json
  {
    match id
    case StrId(s) => JStr(s)
    case IntId(n) => JInt(n)
  }

  /** `MCPRequest` validated from the members of a request body. */
  function DecodeRequestFields(fields: JsonObject): (r: Decoded<McpRequest>)
    ensures r.Ok? <==> RequestWellTyped(fields)
    ensures r.Ok? ==>
              && r.value.jsonrpc == (if "jsonrpc" in fields then fields["jsonrpc"].s else DefaultJsonRpc)
              && fields["id"] == IdJson(r.value.id)
              && fields["method"] == JStr(r.value.methodName)
              && fields["params"] == JObj(r.value.params)
    ensures r.Rejected? ==> r.errors != []
  {
    var jsonrpc := StringOr(fields, "jsonrpc", DefaultJsonRpc);
    var id := RequiredId(fields, "id");
    var methodName := RequiredString(fields, "method");
    var params := RequiredObject(fields, "params");
    if jsonrpc.Ok? && id.Ok? && methodName.Ok? && params.Ok? then
      Ok(McpRequest(jsonrpc.value, id.value, methodName.value, params.value))
    else
      Rejected(ErrorsOf(jsonrpc) + ErrorsOf(id) + ErrorsOf(methodName) + ErrorsOf(params))
  }

  /** `MCPRequest` validated from a request body, which must be a JSON object:
      an object body decodes as the record of its members. */
  function DecodeRequest(body: Json): (r: Decoded<McpRequest>)
    ensures !body.JObj? ==> r == Rejected([NotAnObject])
    ensures body.JObj? ==> r == DecodeRequestFields(body.fields)
    ensures r.Ok? <==> body.JObj? && RequestWellTyped(body.fields)
  {
    match body
    case JObj(fields) => DecodeRequestFields(fields)
    case _ => Rejected([NotAnObject])
  }

  /** A rejected query record names each absent required field as missing,
      and a present `n_results` that is not an integer as mistyped. */
  lemma QueryParamsErrorsNameFields(args: JsonObject)
    requires DecodeQueryParams(args).Rejected?
    ensures var errs := DecodeQueryParams(args).errors;
      && (Missing("collection") in errs <==> "collection" !in args)
      && (Missing("query_texts") in errs <==> "query_texts" !in args)
      && (WrongType("n_results") in errs <==> "n_results" in args && !args["n_results"].JInt?)
      && Missing("n_results") !in errs
  {
  }

  /** A rejected add-texts record names each absent required field as
      missing, and never `metadatas`, which has a default. */
  lemma AddTextsParamsErrorsNameFields(args: JsonObject)
    requires DecodeAddTextsParams(args).Rejected?
    ensures var errs := DecodeAddTextsParams(args).errors;
      && (Missing("collection") in errs <==> "collection" !in args)
      && (Missing("ids") in errs <==> "ids" !in args)
      && (Missing("documents") in errs <==> "documents" !in args)
      && Missing("metadatas") !in errs
  {
    var collection := RequiredString(args, "collection");
    var ids := RequiredStringList(args, "ids");
    var documents := RequiredStringList(args, "documents");
    var metadatas := OptionalObjectList(args, "metadatas");
    assert DecodeAddTextsParams(args).errors
        == ErrorsOf(collection) + ErrorsOf(ids) + ErrorsOf(documents) + ErrorsOf(metadatas);
  }

  /** A rejected request names each absent required field as missing, and
      never `jsonrpc`, which has a default. */
  lemma RequestErrorsNameFields(fields: JsonObject)
    requires DecodeRequestFields(fields).Rejected?
    ensures var errs := DecodeRequestFields(fields).errors;
      && (Missing("id") in errs <==> "id" !in fields)
      && (Missing("method") in errs <==> "method" !in fields)
      && (Missing("params") in errs <==> "params" !in fields)
      && Missing("jsonrpc") !in errs
  {
    var jsonrpc := StringOr(fields, "jsonrpc", DefaultJsonRpc);
    var id := RequiredId(fields, "id");
    var methodName := RequiredString(fields, "method");
    var params := RequiredObject(fields, "params");
    assert DecodeRequestFields(fields).errors
        == ErrorsOf(jsonrpc) + ErrorsOf(id) + ErrorsOf(methodName) + ErrorsOf(params);
  }

  // ---------------------------------------------------------------------------
  // Encoders (pydantic's model_dump) and round trips
  // ---------------------------------------------------------------------------

  function EncodeQueryParams(p: QueryParams): JsonObject
  {
    map["collection" := JStr(p.collection),
        "query_texts" := JArr(Strings(p.queryTexts)),
        "n_results" := JInt(p.nResults)]
  }

  function EncodeAddTextsParams(p: AddTextsParams): JsonObject
  {
    map["collection" := JStr(p.collection),
        "ids" := JArr(Strings(p.ids)),
        "documents" := JArr(Strings(p.documents)),
        "metadatas" := match p.metadatas
                       case None => JNull
                       case Some(ms) => JArr(Objects(ms))]
  }

  function EncodeRequest(req: McpRequest): Json
  {
    JObj(map["jsonrpc" := JStr(req.jsonrpc),
             "id" := IdJson(req.id),
             "method" := JStr(req.methodName),
             "params" := JObj(req.params)])
  }

  /** A list of strings is accepted back from its JSON array, item for item. */
  lemma StringsRoundTrip(name: string, xs: seq<string>)
    ensures ItemsOf(name, Strings(xs), AsString) == Ok(xs)
  {
    var r := ItemsOf(name, Strings(xs), AsString);
    assert forall i :: 0 <= i < |xs| ==> AsString(Strings(xs)[i]) == Some(xs[i]);
    assert r.value == xs;
  }

  /** A list of metadata objects is accepted back from its JSON array, item for item. */
  lemma ObjectsRoundTrip(name: string, ms: seq<Metadata>)
    ensures ItemsOf(name, Objects(ms), AsObject) == Ok(ms)
  {
    var r := ItemsOf(name, Objects(ms), AsObject);
    assert forall i :: 0 <= i < |ms| ==> AsObject(Objects(ms)[i]) == Some(ms[i]);
    assert r.value == ms;
  }

  /** Every query record is accepted back from its JSON form: any collection
      name, any list of query texts (the empty one too) and any n_results,
      with no range check. */
  lemma QueryParamsRoundTrip(p: QueryParams)
    ensures DecodeQueryParams(EncodeQueryParams(p)) == Ok(p)
  {
    StringsRoundTrip("query_texts", p.queryTexts);
  }

  /** Every add-texts record is accepted back from its JSON form, whatever
      the lengths of `ids` and `documents` (no cross-field check). */
  lemma AddTextsParamsRoundTrip(p: AddTextsParams)
    ensures DecodeAddTextsParams(EncodeAddTextsParams(p)) == Ok(p)
  {
    StringsRoundTrip("ids", p.ids);
    StringsRoundTrip("documents", p.documents);
    if p.metadatas.Some? {
      ObjectsRoundTrip("metadatas", p.metadatas.value);
    }
  }

  /** Every request is accepted back from its JSON form: any jsonrpc string,
      and an id kept as the string or integer it was. */
  lemma RequestRoundTrip(req: McpRequest)
    ensures DecodeRequest(EncodeRequest(req)) == Ok(req)
  {
  }

  /** Keys the query record does not declare do not change its decoding. */
  lemma QueryParamsIgnoreExtraKeys(args: JsonObject, key: string, value: Json)
    requires key !in {"collection", "query_texts", "n_results"}
    ensures DecodeQueryParams(args[key := value]) == DecodeQueryParams(args)
  {
    assert RequiredString(args[key := value], "collection") == RequiredString(args, "collection");
    assert RequiredStringList(args[key := value], "query_texts") == RequiredStringList(args, "query_texts");
    assert IntOr(args[key := value], "n_results", DefaultNResults) == IntOr(args, "n_results", DefaultNResults);
  }

  /** Keys the add-texts record does not declare do not change its decoding. */
  lemma AddTextsParamsIgnoreExtraKeys(args: JsonObject, key: string, value: Json)
    requires key !in {"collection", "ids", "documents", "metadatas"}
    ensures DecodeAddTextsParams(args[key := value]) == DecodeAddTextsParams(args)
  {
    assert RequiredString(args[key := value], "collection") == RequiredString(args, "collection");
    assert RequiredStringList(args[key := value], "ids") == RequiredStringList(args, "ids");
    assert RequiredStringList(args[key := value], "documents") == RequiredStringList(args, "documents");
    assert OptionalObjectList(args[key := value], "metadatas") == OptionalObjectList(args, "metadatas");
  }
}
