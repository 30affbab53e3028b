/**
 * The storage file client: one bucket of the storage service, addressed
 * through a base URL with a fixed set of authentication headers. Each
 * operation builds one request, hands it to the transport `send`, and maps
 * the outcome to what the caller sees, with the `except` policy that
 * operation's code implements.
 */
module Storage {
  import opened Wrappers
  import opened Values
  import opened Http

  /** The client's three fields, assigned once by `__init__` and never updated. */
  datatype StorageFileApi = StorageFileApi(url: string, headers: map<string, string>, bucketId: string)

  /** The class attribute `DEFAULT_SEARCH_OPTIONS`. */
  const DefaultSearchOptions: map<string, Json> :=
    map[
      "limit" := JInt(100),
      "offset" := JInt(0),
      "sortBy" := JObj(map["column" := JStr("name"), "order" := JStr("asc")])
    ]

  /** `_get_final_path`: the object's path qualified by the bucket. */
  function FinalPath(api: StorageFileApi, path: string): (r: string)
    ensures |r| == |api.bucketId| + 1 + |path|
    ensures r[..|api.bucketId|] == api.bucketId
    ensures r[|api.bucketId|] == '/'
    ensures r[|api.bucketId| + 1..] == path
  {
    api.bucketId + "/" + path
  }

  /** Within one bucket, distinct object paths give distinct final paths. */
  lemma FinalPathInjective(api: StorageFileApi, p: string, q: string)
    ensures FinalPath(api, p) == FinalPath(api, q) ==> p == q
  {
  }

  // ---------------------------------------------------------------------
  // create_signed_url

  /** The request `create_signed_url` sends. */
  function SignRequest(api: StorageFileApi, path: string, expiresIn: int): (req: HttpRequest)
    ensures req.verb == Post
    ensures req.url == api.url + "/object/sign/" + api.bucketId + "/" + path
    ensures req.headers == api.headers
    ensures req.body.JsonBody? && req.body.json.Keys == {"expiresIn"}
    ensures req.body.json["expiresIn"] == JStr(DecimalString(expiresIn))
    ensures ParseDecimal(req.body.json["expiresIn"].s) == Some(expiresIn)
  {
    ParseDecimalOfDecimalString(expiresIn);
    HttpRequest(
      Post,
      api.url + "/object/sign/" + FinalPath(api, path),
      JsonBody(map["expiresIn" := JStr(DecimalString(expiresIn))]),
      api.headers)
  }

  /**
   * The outcome on which `create_signed_url` returns a value: a status
   * `raise_for_status()` accepts and a body that decodes to a dict holding
   * `signedURL`.
   */
  predicate IsSignedUrlAnswer(o: Outcome) {
    && o.Response?
    && !IsErrorStatus(o.status)
    && o.payload.Decodes?
    && o.payload.value.JObj?
    && "signedURL" in o.payload.value.fields
  }

  /**
   * `create_signed_url`. The body is decoded and its `signedURL` rewritten
   * before the status is checked; every exception on the way is swallowed.
   */
  method CreateSignedUrl(api: StorageFileApi, path: string, expiresIn: int, send: HttpRequest -> Outcome)
    returns (r: OpResult)
    ensures !r.Raised?
    ensures r.Returned? <==> IsSignedUrlAnswer(send(SignRequest(api, path, expiresIn)))
    ensures r.Returned? ==>
      var data := send(SignRequest(api, path, expiresIn)).payload.value.fields;
      && r.value.JObj?
      && r.value.fields.Keys == data.Keys
      && r.value.fields["signedURL"] == JStr(api.url + FormatValue(data["signedURL"]))
      && (forall k :: k in data && k != "signedURL" ==> r.value.fields[k] == data[k])
      && (data["signedURL"].JStr? ==> r.value.fields["signedURL"] == JStr(api.url + data["signedURL"].s))
    ensures r.Returned? ==> r.value.fields["signedURL"].JStr? && api.url <= r.value.fields["signedURL"].s
  {
    var raised: Option<Exception> := None;
    var data: map<string, Json> := map[];
    var response := send(SignRequest(api, path, expiresIn));
    match response {
      case TransportFailure =>
        raised := Some(TransportError);
      case Response(status, Undecodable) =>
        raised := Some(DecodeError);
      case Response(status, Decodes(v)) =>
        if !v.JObj? {
          raised := Some(TypeError);
        } else if "signedURL" !in v.fields {
          raised := Some(KeyError("signedURL"));
        } else {
          data := v.fields;
          data := data["signedURL" := JStr(api.url + FormatValue(data["signedURL"]))];
          raised := RaiseForStatus(status);
        }
    }
    if raised.Some? {
      r := SwallowAll(raised.value);
    } else {
      r := Returned(JObj(data));
    }
  }

  // ---------------------------------------------------------------------
  // move

  /** The request `move` sends. */
  function MoveRequest(api: StorageFileApi, fromPath: string, toPath: string): (req: HttpRequest)
    ensures req.verb == Post && req.url == api.url + "/object/move"
    ensures req.headers == api.headers
    ensures req.body.FormBody?
    ensures req.body.form.Keys == {"bucketId", "sourceKey", "destinationKey"}
    ensures req.body.form["bucketId"] == Field(api.bucketId)
    ensures req.body.form["sourceKey"] == Field(fromPath)
    ensures req.body.form["destinationKey"] == Field(toPath)
  {
    HttpRequest(
      Post,
      api.url + "/object/move",
      FormBody(map[
        "bucketId" := Field(api.bucketId),
        "sourceKey" := Field(fromPath),
        "destinationKey" := Field(toPath)
      ]),
      api.headers)
  }

  /**
   * `move`: every exception inside the `try` gives `None`; the decoding of a
   * successful response runs in the `else` clause, so its failure is raised.
   */
  function Move(api: StorageFileApi, fromPath: string, toPath: string, send: HttpRequest -> Outcome): (r: OpResult)
    ensures var o := send(MoveRequest(api, fromPath, toPath));
      && (r == ReturnedNone <==> o.TransportFailure? || IsErrorStatus(o.status))
      && (r.Raised? <==> o.Response? && !IsErrorStatus(o.status) && o.payload.Undecodable?)
      && (r.Raised? ==> r.error == DecodeError)
      && (r.Returned? ==> o.payload == Decodes(r.value))
  {
    match SendAndCheck(send(MoveRequest(api, fromPath, toPath)))
    case Failure(e) => SwallowAll(e)
    case Success(payload) => ReturnJson(payload)
  }

  // ---------------------------------------------------------------------
  // remove

  /** The request `remove` sends. */
  function RemoveRequest(api: StorageFileApi, paths: seq<string>): (req: HttpRequest)
    ensures req.verb == Delete && req.url == api.url + "/object/" + api.bucketId
    ensures req.headers == api.headers
    ensures req.body == FormBody(map["prefixes" := Fields(paths)])
  {
    HttpRequest(Delete, api.url + "/object/" + api.bucketId, FormBody(map["prefixes" := Fields(paths)]), api.headers)
  }

  /**
   * `remove`: an HTTP error status gives `None`; a transport failure is
   * re-raised, and so is a failure to decode a successful response.
   */
  function Remove(api: StorageFileApi, paths: seq<string>, send: HttpRequest -> Outcome): (r: OpResult)
    ensures var o := send(RemoveRequest(api, paths));
      && (r == ReturnedNone <==> o.Response? && IsErrorStatus(o.status))
      && (r.Raised? <==> o.TransportFailure? || (!IsErrorStatus(o.status) && o.payload.Undecodable?))
      && (r.Raised? ==> r.error == if o.TransportFailure? then TransportError else DecodeError)
      && (r.Returned? ==> o.payload == Decodes(r.value))
  {
    match SendAndCheck(send(RemoveRequest(api, paths)))
    case Failure(e) => SwallowHttpError(e)
    case Success(payload) => ReturnJson(payload)
  }

  // ---------------------------------------------------------------------
  // list

  /** `path if path else ""`: `None` and the empty string both send the empty prefix. */
  function Prefix(path: Option<string>): (p: string)
    ensures p == if path.Some? then path.value else ""
  {
    if path.Some? && path.value != "" then path.value else ""
  }

  /**
   * The body `list` sends, key by key: `prefix` from the path, otherwise the
   * caller's option if there is one, otherwise the default.
   */
  function ListBody(path: Option<string>, options: map<string, Json>): (body: map<string, Json>) {
    map k | k in DefaultSearchOptions.Keys + options.Keys + {"prefix"} ::
      if k == "prefix" then JStr(Prefix(path))
      else if k in options then options[k]
      else DefaultSearchOptions[k]
  }

  /** The headers `list` sends, key by key: `Content-Type` forced to JSON, the rest as configured. */
  function ListHeaders(headers: map<string, string>): (h: map<string, string>) {
    map k | k in headers.Keys + {"Content-Type"} ::
      if k == "Content-Type" then "application/json" else headers[k]
  }

  /**
   * The request `list` sends. The merge is shallow and caller keys win:
   * every default the options do not mention is sent as is, every option is
   * sent as given, `prefix` always comes from the path, and nothing else is
   * sent. `Content-Type` is JSON and every other configured header is kept.
   */
  function ListRequest(api: StorageFileApi, path: Option<string>, options: map<string, Json>): (req: HttpRequest)
    ensures req.verb == Post && req.url == api.url + "/object/list/" + api.bucketId
    ensures req.body.JsonBody?
    ensures req.body.json.Keys == DefaultSearchOptions.Keys + options.Keys + {"prefix"}
    ensures forall k :: k in DefaultSearchOptions && k !in options ==> req.body.json[k] == DefaultSearchOptions[k]
    ensures forall k :: k in options && k != "prefix" ==> req.body.json[k] == options[k]
    ensures req.body.json["prefix"] == JStr(if path.Some? then path.value else "")
    ensures req.headers.Keys == api.headers.Keys + {"Content-Type"}
    ensures req.headers["Content-Type"] == "application/json"
    ensures forall k :: k in api.headers && k != "Content-Type" ==> req.headers[k] == api.headers[k]
  {
    HttpRequest(Post, api.url + "/object/list/" + api.bucketId, JsonBody(ListBody(path, options)), ListHeaders(api.headers))
  }

  /**
   * `list`: builds a fresh body by merging the options over the defaults,
   * then writes `prefix` into it; an HTTP error status gives `None`, a
   * transport failure and a failure to decode a successful response are raised.
   */
  method List(api: StorageFileApi, path: Option<string>, options: map<string, Json>, send: HttpRequest -> Outcome)
    returns (r: OpResult)
    ensures var o := send(ListRequest(api, path, options));
      && (r == ReturnedNone <==> o.Response? && IsErrorStatus(o.status))
      && (r.Raised? <==> o.TransportFailure? || (!IsErrorStatus(o.status) && o.payload.Undecodable?))
      && (r.Raised? ==> r.error == if o.TransportFailure? then TransportError else DecodeError)
      && (r.Returned? ==> o.payload == Decodes(r.value))
  {
    var body := DefaultSearchOptions + options;
    var headers := api.headers + map["Content-Type" := "application/json"];
    body := body["prefix" := JStr(Prefix(path))];
    var request := HttpRequest(Post, api.url + "/object/list/" + api.bucketId, JsonBody(body), headers);
    assert body == ListBody(path, options);
    assert headers == ListHeaders(api.headers);
    match SendAndCheck(send(request)) {
      case Failure(e) => r := SwallowHttpError(e);
      case Success(payload) => r := ReturnJson(payload);
    }
  }

  /** A caller's `sortBy` replaces the whole default one: a missing `order` is not filled in. */
  lemma ListSortByIsShallow(path: Option<string>)
    ensures var sortBy := JObj(map["column" := JStr("created_at")]);
      var body := ListBody(path, map["sortBy" := sortBy]);
      body["sortBy"] == sortBy && "order" !in body["sortBy"].fields
  {
  }

  /** Listing `folder` with no options posts to the bucket's list endpoint with the JSON content type. */
  lemma ListScenarioRequest()
    ensures var req := ListRequest(StorageFileApi("https://x.test", map[], "bucket1"), Some("folder"), map[]);
      && req.verb == Post
      && req.url == "https://x.test/object/list/bucket1"
      && req.headers == map["Content-Type" := "application/json"]
  {
  }

  /** Listing `folder` with no options sends the defaults and the folder as prefix. */
  lemma ListScenarioBody()
    ensures var req := ListRequest(StorageFileApi("https://x.test", map[], "bucket1"), Some("folder"), map[]);
      && req.body.json.Keys == {"limit", "offset", "sortBy", "prefix"}
      && req.body.json["limit"] == JInt(100)
      && req.body.json["offset"] == JInt(0)
      && req.body.json["sortBy"] == JObj(map["column" := JStr("name"), "order" := JStr("asc")])
      && req.body.json["prefix"] == JStr("folder")
  {
  }

  /**
   * On the same outcome, `move` and `remove` agree exactly when a response
   * arrived: on a transport failure `move` returns `None` but `remove` raises.
   */
  lemma MoveRemovePoliciesDiffer(api: StorageFileApi, fromPath: string, toPath: string, paths: seq<string>, send: HttpRequest -> Outcome)
    requires send(MoveRequest(api, fromPath, toPath)) == send(RemoveRequest(api, paths))
    ensures Move(api, fromPath, toPath, send) == Remove(api, paths, send) <==> send(RemoveRequest(api, paths)).Response?
  {
  }
}
