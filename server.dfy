/** The Express proxy in front of the recognition backend: the upload filter, the single and
    batch prediction handlers (which forward each image to the backend's `/api/translate`),
    the error middleware and the catch-all 404. Request bodies and replies are JSON objects;
    what the backend call did for each file is a parameter. */
module ProxyServer {
  import opened Wrappers
  import Text

  const AllowedTypes: seq<string> := ["image/jpeg", "image/jpg", "image/png", "image/bmp"]
  const FilterMessage: string := "Invalid file type. Only JPEG, PNG, and BMP are allowed."
  /** Multer's per-file limit, 10 MiB, and the most files one batch takes. */
  const MaxUploadBytes: nat := 10 * 1024 * 1024
  const MaxBatchFiles: nat := 10
  const DefaultBackendUrl: string := "https://silenbek-production.up.railway.app"

  datatype Json =
    | JNull
    | JBool(b: bool)
    | JNumber(n: int)
    | JString(s: string)
    | JArray(items: seq<Json>)
    | JObject(fields: map<string, Json>)

  type Object = map<string, Json>

  /** JavaScript truthiness of a JSON value (`undefined` is `JNull` here). */
  predicate Truthy(v: Json)
  {
    match v
    case JNull => false
    case JBool(b) => b
    case JNumber(n) => n != 0
    case JString(s) => s != ""
    case _ => true
  }

  function Field(o: Object, key: string): Json
  {
    if key in o then o[key] else JNull
  }

  datatype Response = Response(status: int, body: Object)

  datatype UploadedFile = UploadedFile(originalName: string, mimetype: string, size: nat)

  /** What the `axios.post` to the backend did: answered 2xx with `data`, or threw with
      `message`, carrying the backend's non-2xx response when there was one. */
  datatype BackendCall =
    | Replied(data: Object)
    | Rejected(message: string, response: Option<Response>)

  /** `API_BASE_URL`: `VITE_API_BASE_URL` ("" when unset) or the default. */
  function BackendUrl(configured: string): (url: string)
    ensures configured != "" ==> url == configured
    ensures configured == "" ==> url == DefaultBackendUrl
  {
    if configured != "" then configured else DefaultBackendUrl
  }

  // ---------------------------------------------------------------------------------
  // Upload filter

  /** `fileFilter`: accepts the four image types, fails with the filter message otherwise. */
  function FileFilter(mimetype: string): (r: Result<bool, string>)
    ensures r.Success? <==> mimetype in AllowedTypes
    ensures r.Success? ==> r.value
    ensures r.Failure? ==> r.error == FilterMessage
  {
    if mimetype in AllowedTypes then Success(true) else Failure(FilterMessage)
  }

  /** GIF and WebP are refused; the four listed types pass. */
  lemma FilterExamples()
    ensures FileFilter("image/gif").Failure? && FileFilter("image/webp").Failure?
    ensures forall t :: t in AllowedTypes ==> FileFilter(t) == Success(true)
  {
  }

  // ---------------------------------------------------------------------------------
  // The form forwarded to the backend

  /** The multipart form sent to `/api/translate`: the image under 'image', and
      'dataset_type' only when the client gave a non-empty one. */
  datatype ForwardForm = ForwardForm(filename: string, contentType: string, datasetType: Option<string>)

  function FormFor(file: UploadedFile, datasetType: string): (f: ForwardForm)
    ensures f.filename == file.originalName && f.contentType == file.mimetype
    ensures f.datasetType.Some? <==> datasetType != ""
    ensures f.datasetType.Some? ==> f.datasetType.value == datasetType
  {
    ForwardForm(file.originalName, file.mimetype, if datasetType != "" then Some(datasetType) else None)
  }

  // ---------------------------------------------------------------------------------
  // POST /api/predict

  function NoFileBody(): Object
  {
    map["success" := JBool(false), "error" := JString("No image file provided")]
  }

  /** The answer to a single prediction: 400 without a file, the backend's data when it
      answered, the backend's own status and body when it refused, 500 otherwise. */
  function HandlePredict(file: Option<UploadedFile>, call: BackendCall, backendUrl: string): (resp: Response)
    ensures file.None? ==> resp == Response(400, NoFileBody())
    ensures file.Some? && call.Replied? ==> resp == Response(200, call.data)
    ensures file.Some? && call.Rejected? && call.response.Some? ==> resp == call.response.value
    ensures file.Some? && call.Rejected? && call.response.None? ==>
      resp.status == 500 && Field(resp.body, "success") == JBool(false) && Field(resp.body, "message") == JString(call.message)
  {
    if file.None? then Response(400, NoFileBody())
    else match call
      case Replied(data) => Response(200, data)
      case Rejected(message, response) =>
        if response.Some? then response.value
        else Response(500, map["success" := JBool(false), "error" := JString("Failed to process prediction"),
                               "message" := JString(message), "backend_url" := JString(backendUrl)])
  }

  /** The status of a single prediction is 200, 400, 500 or the backend's own, and the
      proxy never reports success on its own: a 200 means a file was sent and the backend
      answered (or itself refused with a 200). */
  lemma PredictStatuses(file: Option<UploadedFile>, call: BackendCall, backendUrl: string)
    ensures var s := HandlePredict(file, call, backendUrl).status;
      s == 200 || s == 400 || s == 500 || (call.Rejected? && call.response.Some? && s == call.response.value.status)
    ensures HandlePredict(file, call, backendUrl).status == 200 ==>
      file.Some? && (call.Replied? || (call.response.Some? && call.response.value.status == 200))
  {
  }

  // ---------------------------------------------------------------------------------
  // POST /api/predict/batch

  /** The entry of file `i` in the batch results: the backend's data with index, name and
      `success: true` laid over it, or a failure record with the error message. */
  function FileResult(i: nat, file: UploadedFile, call: BackendCall): (r: Object)
    ensures Field(r, "imageIndex") == JNumber(i)
    ensures Field(r, "imageName") == JString(file.originalName)
    ensures Field(r, "success") == JBool(call.Replied?)
    ensures call.Rejected? ==> Field(r, "error") == JString(call.message)
    ensures call.Replied? ==> forall k :: k in call.data && k !in {"imageIndex", "imageName", "success"} ==> k in r && r[k] == call.data[k]
  {
    match call
    case Replied(data) =>
      data + map["imageIndex" := JNumber(i), "imageName" := JString(file.originalName), "success" := JBool(true)]
    case Rejected(message, _) =>
      map["success" := JBool(false), "error" := JString(message), "imageIndex" := JNumber(i), "imageName" := JString(file.originalName)]
  }

  function BatchResults(files: seq<UploadedFile>, calls: seq<BackendCall>): (rs: seq<Object>)
    requires |calls| == |files|
    ensures |rs| == |files|
  {
    seq(|files|, i requires 0 <= i < |files| => FileResult(i, files[i], calls[i]))
  }

  /** `results.filter(r => r.success).length` */
  function CountSuccessful(results: seq<Object>): nat
  {
    if |results| == 0 then 0
    else CountSuccessful(results[..|results| - 1]) + (if Truthy(Field(results[|results| - 1], "success")) then 1 else 0)
  }

  function CountReplied(calls: seq<BackendCall>): nat
  {
    if |calls| == 0 then 0
    else CountReplied(calls[..|calls| - 1]) + (if calls[|calls| - 1].Replied? then 1 else 0)
  }

  /** The summary's `successful` is the number of files the backend answered, whatever
      those answers said. */
  lemma {:induction false} SuccessfulCountsReplies(files: seq<UploadedFile>, calls: seq<BackendCall>)
    requires |calls| == |files|
    ensures CountSuccessful(BatchResults(files, calls)) == CountReplied(calls)
    ensures CountReplied(calls) <= |calls|
  {
    if |files| > 0 {
      var n := |files| - 1;
      SuccessfulCountsReplies(files[..n], calls[..n]);
      assert BatchResults(files, calls)[..n] == BatchResults(files[..n], calls[..n]);
      assert Field(BatchResults(files, calls)[n], "success") == JBool(calls[n].Replied?);
    }
  }

  /** A failing file affects its own entry only: every other entry is what it would have
      been anyway. */
  lemma FailureIsolation(files: seq<UploadedFile>, calls: seq<BackendCall>, j: nat, other: BackendCall, k: nat)
    requires |calls| == |files| && j < |files| && k < |files| && k != j
    ensures BatchResults(files, calls[j := other])[k] == BatchResults(files, calls)[k]
  {
  }

  function BatchBody(results: seq<Object>): Object
  {
    map["success" := JBool(true),
        "results" := JArray(seq(|results|, i requires 0 <= i < |results| => JObject(results[i]))),
        "total" := JNumber(|results|),
        "successful" := JNumber(CountSuccessful(results))]
  }

  /** The batch handler. `calls[i]` is what the backend did for `files[i]`. Returns the
      answer, the forms forwarded in order, and how many 200 ms pauses were taken. */
  method HandleBatch(files: seq<UploadedFile>, datasetType: string, calls: seq<BackendCall>)
    returns (resp: Response, forwarded: seq<ForwardForm>, pauses: nat)
    requires |calls| == |files|
    ensures |files| == 0 ==> resp == Response(400, map["success" := JBool(false), "error" := JString("No image files provided")])
    ensures |files| == 0 ==> forwarded == [] && pauses == 0
    ensures |files| > 0 ==> resp == Response(200, BatchBody(BatchResults(files, calls)))
    ensures |forwarded| == |files| && forall i :: 0 <= i < |files| ==> forwarded[i] == FormFor(files[i], datasetType)
    ensures |files| > 0 ==> pauses == |files| - 1
  {
    forwarded, pauses := [], 0;
    if |files| == 0 {
      resp := Response(400, map["success" := JBool(false), "error" := JString("No image files provided")]);
      return;
    }
    var results: seq<Object> := [];
    var i := 0;
    while i < |files|
      invariant 0 <= i <= |files|
      invariant results == BatchResults(files[..i], calls[..i])
      invariant |forwarded| == i && forall k :: 0 <= k < i ==> forwarded[k] == FormFor(files[k], datasetType)
      invariant pauses == (if i < |files| then i else |files| - 1)
    {
      var file := files[i];
      var form := ForwardForm(file.originalName, file.mimetype, None);
      if datasetType != "" {
        form := form.(datasetType := Some(datasetType));
      }
      forwarded := forwarded + [form];
      match calls[i] {
        case Replied(data) =>
          results := results + [data + map["imageIndex" := JNumber(i), "imageName" := JString(file.originalName), "success" := JBool(true)]];
        case Rejected(message, _) =>
          results := results + [map["success" := JBool(false), "error" := JString(message), "imageIndex" := JNumber(i), "imageName" := JString(file.originalName)]];
      }
      if i < |files| - 1 {
        pauses := pauses + 1;
      }
      assert BatchResults(files[..i + 1], calls[..i + 1]) == BatchResults(files[..i], calls[..i]) + [FileResult(i, files[i], calls[i])];
      i := i + 1;
    }
    assert files[..i] == files && calls[..i] == calls;
    resp := Response(200, BatchBody(results));
  }

  // ---------------------------------------------------------------------------------
  // Error middleware and 404

  /** An error reaching the middleware: one of multer's (with its code) or any other. */
  datatype ServerError = MulterError(code: string, message: string) | OtherError(message: string)

  function HandleError(e: ServerError): (resp: Response)
    ensures resp.status == (if e.MulterError? && e.code == "LIMIT_FILE_SIZE" then 400 else 500)
    ensures Field(resp.body, "success") == JBool(false)
  {
    if e.MulterError? && e.code == "LIMIT_FILE_SIZE" then
      Response(400, map["success" := JBool(false), "error" := JString("File too large. Maximum size is 10MB.")])
    else
      Response(500, map["success" := JBool(false), "error" := JString("Internal server error"), "message" := JString(e.message)])
  }

  /** The filter's refusal is a plain error, not one of multer's, so an upload of the wrong
      type is answered 500 "Internal server error" carrying the filter's message. */
  lemma WrongTypeUploadAnswers500(mimetype: string)
    requires mimetype !in AllowedTypes
    ensures var resp := HandleError(OtherError(FileFilter(mimetype).error));
      resp.status == 500 && Field(resp.body, "message") == JString(FilterMessage)
  {
  }

  // ---------------------------------------------------------------------------------
  // Multer's checks on the files of one request

  /** Every file from index `i` on passes the type filter and the size limit. */
  ghost predicate AllAcceptable(files: seq<UploadedFile>, i: nat)
    requires i <= |files|
  {
    forall k :: i <= k < |files| ==> files[k].mimetype in AllowedTypes && files[k].size <= MaxUploadBytes
  }

  /** The error multer raises for the files of one request from index `i` on, checked file by
      file in arrival order: a file beyond `maxCount` is an unexpected field (counted before
      the filter runs), then the type filter decides, then the size limit while the file
      streams. The first error aborts the request. */
  function UploadError(files: seq<UploadedFile>, maxCount: nat, i: nat): Option<ServerError>
    requires i <= |files|
    decreases |files| - i
  {
    if i == |files| then None
    else if i >= maxCount then Some(MulterError("LIMIT_UNEXPECTED_FILE", "Unexpected field"))
    else if files[i].mimetype !in AllowedTypes then Some(OtherError(FilterMessage))
    else if files[i].size > MaxUploadBytes then Some(MulterError("LIMIT_FILE_SIZE", "File too large"))
    else UploadError(files, maxCount, i + 1)
  }

  /** A request gets through multer exactly when it has at most `maxCount` files and every
      one of them has an allowed type and fits the 10 MiB limit. */
  lemma {:induction false} UploadPassesExactly(files: seq<UploadedFile>, maxCount: nat, i: nat)
    requires i <= |files|
    ensures UploadError(files, maxCount, i).None? <==> (i == |files| || |files| <= maxCount) && AllAcceptable(files, i)
    decreases |files| - i
  {
    if i < |files| {
      UploadPassesExactly(files, maxCount, i + 1);
    }
  }

  /** Once every file has an allowed type and the count is within bounds, the only error left
      is the size limit, which the middleware answers 400. */
  lemma {:induction false} OversizeUploadAnswers400(files: seq<UploadedFile>, maxCount: nat, i: nat)
    requires i <= |files| <= maxCount
    requires forall k :: i <= k < |files| ==> files[k].mimetype in AllowedTypes
    requires exists k :: i <= k < |files| && files[k].size > MaxUploadBytes
    ensures UploadError(files, maxCount, i).Some?
    ensures HandleError(UploadError(files, maxCount, i).value).status == 400
    decreases |files| - i
  {
    if files[i].size <= MaxUploadBytes {
      OversizeUploadAnswers400(files, maxCount, i + 1);
    }
  }

  /** A batch of more than ten acceptable files is refused by multer's count, which the
      middleware does not single out: it is answered 500. */
  lemma TooManyBatchFilesAnswer500(files: seq<UploadedFile>)
    requires |files| > MaxBatchFiles
    requires forall k :: 0 <= k < MaxBatchFiles ==> files[k].mimetype in AllowedTypes && files[k].size <= MaxUploadBytes
    ensures UploadError(files, MaxBatchFiles, 0) == Some(MulterError("LIMIT_UNEXPECTED_FILE", "Unexpected field"))
    ensures HandleError(UploadError(files, MaxBatchFiles, 0).value).status == 500
  {
    var i := 0;
    while i < MaxBatchFiles
      invariant 0 <= i <= MaxBatchFiles
      invariant UploadError(files, MaxBatchFiles, 0) == UploadError(files, MaxBatchFiles, i)
    {
      i := i + 1;
    }
  }

  // ---------------------------------------------------------------------------------
  // Routing

  datatype Method = Get | Head | Post | Options | OtherMethod(name: string)

  /** The handlers the app registers, in the order Express tries them. */
  datatype Route =
    | Preflight | StaticFile | IndexPage | LocalHealth | ProxyHealth | ProxyModels
    | Predict | PredictBatch | LoadModel(datasetType: string) | NotFound

  function StartsWith(s: string, prefix: string): bool
  {
    |prefix| <= |s| && s[..|prefix|] == prefix
  }

  /** The path as Express's router compares it: ASCII case ignored and one trailing slash
      optional (its default non-strict, case-insensitive matching). */
  function RoutePath(path: string): (p: string)
    ensures p == Text.Lower(path) || p + "/" == Text.Lower(path)
    ensures |p| == |path| || |p| == |path| - 1
  {
    var l := Text.Lower(path);
    if |l| > 0 && l[|l| - 1] == '/' then l[..|l| - 1] else l
  }

  const LoadModelPrefix: string := "/api/load_model/"

  /** `/api/load_model/:dataset_type`: one non-empty path segment after the prefix. */
  predicate IsLoadModelPath(p: string)
  {
    StartsWith(p, LoadModelPrefix) && |p| > |LoadModelPrefix| && '/' !in p[|LoadModelPrefix|..]
  }

  /** `app.get` handlers answer HEAD as well. */
  predicate ReadsLike(m: Method)
  {
    m == Get || m == Head
  }

  /** Which handler answers `method path`; `inPublic` says whether `path` names a file under
      the static directory. CORS answers every preflight first; the static directory serves
      GET and HEAD only and lets other methods through to the routes. */
  function RouteOf(m: Method, path: string, inPublic: bool): (r: Route)
    ensures r == Preflight <==> m == Options
    ensures r == StaticFile <==> ReadsLike(m) && inPublic
    ensures r.NotFound? <==> (
      && m != Options
      && !(ReadsLike(m) && inPublic)
      && !(ReadsLike(m) && RoutePath(path) in {"", "/health", "/api/health", "/api/models"})
      && !(m == Post && RoutePath(path) in {"/api/predict", "/api/predict/batch"})
      && !(m == Post && IsLoadModelPath(RoutePath(path))))
    ensures r.LoadModel? ==>
      && IsLoadModelPath(RoutePath(path))
      && r.datasetType != ""
      && Text.Lower(r.datasetType) == RoutePath(path)[|LoadModelPrefix|..]
  {
    var p := RoutePath(path);
    if m == Options then Preflight
    else if ReadsLike(m) && inPublic then StaticFile
    else if ReadsLike(m) && p == "" then IndexPage
    else if ReadsLike(m) && p == "/health" then LocalHealth
    else if ReadsLike(m) && p == "/api/health" then ProxyHealth
    else if ReadsLike(m) && p == "/api/models" then ProxyModels
    else if m == Post && p == "/api/predict" then Predict
    else if m == Post && p == "/api/predict/batch" then PredictBatch
    else if m == Post && IsLoadModelPath(p) then
      var segment := path[|LoadModelPrefix|..|p|];
      assert Text.Lower(segment) == p[|LoadModelPrefix|..];
      LoadModel(segment)
    else NotFound
  }

  function NotFoundResponse(): (resp: Response)
    ensures resp.status == 404 && Field(resp.body, "success") == JBool(false)
  {
    Response(404, map["success" := JBool(false), "error" := JString("Endpoint not found")])
  }

  /** Letter case never changes which route matches. */
  lemma {:induction false} CaseIgnored(path: string)
    ensures RoutePath(Text.Lower(path)) == RoutePath(path)
  {
    var l := Text.Lower(path);
    assert Text.Lower(l) == l by {
      forall k | 0 <= k < |l| ensures Text.Lower(l)[k] == l[k] {
        assert l[k] == Text.LowerChar(path[k]);
      }
    }
  }

  /** One trailing slash never changes which route matches. */
  lemma {:induction false} TrailingSlashIgnored(path: string)
    requires |path| == 0 || path[|path| - 1] != '/'
    ensures RoutePath(path + "/") == RoutePath(path)
  {
    var l, l' := Text.Lower(path), Text.Lower(path + "/");
    assert l' == l + "/" by {
      forall k | 0 <= k < |l'| ensures l'[k] == (l + "/")[k] {
        if k < |path| {
          assert (path + "/")[k] == path[k];
        }
      }
    }
    assert l'[..|l'| - 1] == l;
  }

  /** A batch sent with GET is not a route. */
  lemma GetBatchIsNotFound()
    ensures RouteOf(Get, "/api/predict/batch", false) == NotFound
  {
    Text.LowerOfLowercase("/api/predict/batch");
    assert RoutePath("/api/predict/batch") == "/api/predict/batch";
  }

  /** A prediction posted with a trailing slash still reaches the handler. */
  lemma PredictWithTrailingSlash()
    ensures RouteOf(Post, "/api/predict/", false) == Predict
  {
    Text.LowerOfLowercase("/api/predict/");
    assert "/api/predict/"[..|"/api/predict/"| - 1] == "/api/predict";
    assert RoutePath("/api/predict/") == "/api/predict";
  }

  /** A POST naming a static file is not served by the static directory: it falls through to
      the routes and, matching none, to the 404. */
  lemma PostToStaticFileIsNotFound()
    ensures RouteOf(Post, "/logo.png", true) == NotFound
  {
    Text.LowerOfLowercase("/logo.png");
  }

  /** Letter case does not matter: an upper-case health check reaches the local handler. */
  lemma UpperCaseHealth()
    ensures RouteOf(Get, "/HEALTH", false) == LocalHealth
  {
    assert Text.Lower("/HEALTH") == "/health";
  }

  /** The dataset segment reaches the handler as written, trailing slash dropped. */
  lemma LoadModelWithTrailingSlash()
    ensures RouteOf(Post, "/api/load_model/BISINDO/", false) == LoadModel("BISINDO")
  {
    assert "/api/load_model/BISINDO/" == LoadModelPrefix + "BISINDO" + "/";
    LoadModelPathParts("BISINDO");
  }

  /** A prefixed segment with a trailing slash is a load_model path whose segment is the
      original one. */
  lemma LoadModelPathParts(segment: string)
    requires |segment| > 0 && '/' !in segment
    ensures RoutePath(LoadModelPrefix + segment + "/") == LoadModelPrefix + Text.Lower(segment)
    ensures IsLoadModelPath(RoutePath(LoadModelPrefix + segment + "/"))
    ensures (LoadModelPrefix + segment + "/")[|LoadModelPrefix|..|LoadModelPrefix| + |segment|] == segment
  {
    var path := LoadModelPrefix + segment + "/";
    var lower := Text.Lower(segment);
    Text.LowerAppend(LoadModelPrefix + segment, "/");
    Text.LowerAppend(LoadModelPrefix, segment);
    Text.LowerOfLowercase(LoadModelPrefix);
    Text.LowerOfLowercase("/");
    var r := LoadModelPrefix + lower;
    assert (r + "/")[..|r|] == r;
    assert r[..|LoadModelPrefix|] == LoadModelPrefix;
    assert r[|LoadModelPrefix|..] == lower;
    assert forall k :: 0 <= k < |lower| ==> lower[k] == Text.LowerChar(segment[k]) && segment[k] != '/';
    assert path[|LoadModelPrefix|..|LoadModelPrefix| + |segment|] == segment;
  }
}
