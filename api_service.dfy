/** The client for the recognition backend: the image check made before any upload, the
    mapping of transport and HTTP failures to the messages the pages display, the extraction
    of the base64 payload from a data URL, and the input dispatch and request body of a
    prediction. What `fetch` and `FileReader` produced is given as a parameter. */
module ApiService {
  import opened Wrappers
  import Text
  import Backend

  const AllowedTypes: seq<string> := ["image/jpeg", "image/jpg", "image/png", "image/bmp"]
  /** 16 MiB */
  const MaxFileBytes: nat := 16 * 1024 * 1024
  const DefaultBaseUrl: string := "https://silenbek-production.up.railway.app"
  const TimeoutMs: nat := 30000

  const InvalidTypeMessage: string := "Invalid file type. Please use JPEG, PNG, or BMP images."
  const TooLargeMessage: string := "File too large. Maximum size is 16MB."
  const TimeoutMessage: string := "Request timeout - Please check your internet connection and try again"
  const NetworkPrefix: string := "Network error - Cannot connect to backend at "

  /** A JavaScript `Error`: its `name` and its `message`. */
  datatype JsError = JsError(name: string, message: string)

  function Plain(message: string): JsError
  {
    JsError("Error", message)
  }

  datatype ImageFile = ImageFile(name: string, mime: string, size: nat)

  // ---------------------------------------------------------------------------------
  // validateImageFile

  /** Type is checked before size; the size bound is inclusive. */
  function ValidateImageFile(f: ImageFile): (r: Result<bool, JsError>)
    ensures r.Success? <==> f.mime in AllowedTypes && f.size <= MaxFileBytes
    ensures r.Failure? ==> r.error.message == (if f.mime !in AllowedTypes then InvalidTypeMessage else TooLargeMessage)
  {
    if f.mime !in AllowedTypes then Failure(Plain(InvalidTypeMessage))
    else if f.size > MaxFileBytes then Failure(Plain(TooLargeMessage))
    else Success(true)
  }

  /** Exactly 16 MiB passes, one byte more does not; an oversized file of the wrong type
      gets the type message. */
  lemma SizeBoundary(name: string, mime: string)
    requires mime in AllowedTypes
    ensures ValidateImageFile(ImageFile(name, mime, 16 * 1024 * 1024)).Success?
    ensures ValidateImageFile(ImageFile(name, mime, 16 * 1024 * 1024 + 1)) == Failure(Plain(TooLargeMessage))
    ensures ValidateImageFile(ImageFile(name, "image/gif", 16 * 1024 * 1024 + 1)) == Failure(Plain(InvalidTypeMessage))
  {
  }

  // ---------------------------------------------------------------------------------
  // request

  /** What `fetch` did: threw (a timeout abort, a network failure, ...) or produced a
      response, whose JSON body either parsed into `T` or failed to parse. `errorField` is the
      `error` field of a non-2xx body ("" when absent or unparseable). */
  datatype Transport<T> =
    | FetchThrew(thrown: JsError)
    | Answered(status: int, statusText: string, errorField: string, data: Result<T, JsError>)

  predicate IsOk(status: int)
  {
    200 <= status <= 299
  }

  /** The message thrown for a non-2xx response. */
  function HttpErrorMessage(status: int, statusText: string, errorField: string): (m: string)
    ensures errorField != "" ==> m == errorField
    ensures errorField == "" ==> m == "HTTP " + Text.IntToString(status) + ": " + statusText
  {
    if errorField != "" then errorField else "HTTP " + Text.IntToString(status) + ": " + statusText
  }

  predicate LooksLikeNetworkFailure(message: string)
  {
    Text.Contains(message, "fetch") || Text.Contains(message, "NetworkError")
  }

  /** The `catch` of `request`: an abort becomes the timeout message, anything that mentions
      `fetch` or `NetworkError` becomes the network message, the rest is rethrown as is. */
  function Classify(e: JsError, baseUrl: string): (r: JsError)
    ensures r == e || r == Plain(TimeoutMessage) || r == Plain(NetworkPrefix + baseUrl)
  {
    if e.name == "AbortError" then Plain(TimeoutMessage)
    else if LooksLikeNetworkFailure(e.message) then Plain(NetworkPrefix + baseUrl)
    else e
  }

  /** `request(endpoint)` once `fetch` has done `t`: only a 2xx body that parsed is a
      success, and every failure goes through the `catch`'s reclassification. */
  function Request<T>(baseUrl: string, t: Transport<T>): (r: Result<T, JsError>)
    ensures r.Success? <==> t.Answered? && IsOk(t.status) && t.data.Success?
    ensures r.Success? ==> r == t.data
    ensures t.FetchThrew? ==> r == Failure(Classify(t.thrown, baseUrl))
    ensures t.Answered? && !IsOk(t.status) ==>
      r == Failure(Classify(Plain(HttpErrorMessage(t.status, t.statusText, t.errorField)), baseUrl))
    ensures t.Answered? && IsOk(t.status) && t.data.Failure? ==> r == Failure(Classify(t.data.error, baseUrl))
  {
    match t
    case FetchThrew(thrown) => Failure(Classify(thrown, baseUrl))
    case Answered(status, statusText, errorField, data) =>
      if !IsOk(status) then Failure(Classify(Plain(HttpErrorMessage(status, statusText, errorField)), baseUrl))
      else match data
        case Success(v) => Success(v)
        case Failure(e) => Failure(Classify(e, baseUrl))
  }

  /** A failure is reported either verbatim or as one of the two fixed messages, and verbatim
      exactly when it is neither an abort nor mentions a network failure. */
  lemma ClassifyVerbatim(e: JsError, baseUrl: string)
    ensures Classify(e, baseUrl) == e <== e.name != "AbortError" && !LooksLikeNetworkFailure(e.message)
    ensures e.name == "AbortError" ==> Classify(e, baseUrl).message == TimeoutMessage
    ensures e.name != "AbortError" && LooksLikeNetworkFailure(e.message) ==>
      Classify(e, baseUrl).message == NetworkPrefix + baseUrl
  {
  }

  /** A non-2xx response whose body names an error that does not look like a network
      failure surfaces that error text. */
  lemma HttpErrorSurfacesBodyError<T>(baseUrl: string, status: int, statusText: string, errorField: string, data: Result<T, JsError>)
    requires !IsOk(status) && errorField != "" && !LooksLikeNetworkFailure(errorField)
    ensures Request(baseUrl, Answered(status, statusText, errorField, data)) == Failure(Plain(errorField))
  {
  }

  /** A non-2xx response without an error field surfaces its status line, unless that line
      itself looks like a network failure. */
  lemma HttpStatusLineSurfaces<T>(baseUrl: string, status: int, statusText: string, data: Result<T, JsError>)
    requires !IsOk(status)
    requires !LooksLikeNetworkFailure("HTTP " + Text.IntToString(status) + ": " + statusText)
    ensures Request(baseUrl, Answered(status, statusText, "", data))
      == Failure(Plain("HTTP " + Text.IntToString(status) + ": " + statusText))
  {
  }

  /** A timeout abort always reads as the timeout message, whatever its own text was. */
  lemma AbortIsTimeout<T>(baseUrl: string, message: string)
    ensures Request<T>(baseUrl, FetchThrew(JsError("AbortError", message))) == Failure(Plain(TimeoutMessage))
  {
  }

  /** The browser's own failure "Failed to fetch" is reported as the network message. */
  lemma FailedFetchIsNetworkError<T>(baseUrl: string)
    ensures Request<T>(baseUrl, FetchThrew(JsError("TypeError", "Failed to fetch"))) == Failure(Plain(NetworkPrefix + baseUrl))
  {
    assert "Failed to fetch" == "Failed to " + "fetch" + "";
    Text.ContainsInside("Failed to ", "fetch", "");
  }

  /** Because the reclassification also sees HTTP error texts, a backend error that merely
      mentions "fetch" is shown as a connection failure. */
  lemma HttpErrorMentioningFetchReadsAsNetwork<T>(baseUrl: string, status: int, statusText: string, before: string, after: string, data: Result<T, JsError>)
    requires !IsOk(status)
    ensures Request(baseUrl, Answered(status, statusText, before + "fetch" + after, data)) == Failure(Plain(NetworkPrefix + baseUrl))
  {
    Text.ContainsInside(before, "fetch", after);
    assert before + "fetch" + after != "";
  }

  /** `{ 'User-Agent': ..., 'Content-Type': ..., ...options.headers }` */
  function DefaultHeaders(): map<string, string>
  {
    map["User-Agent" := "SILENT-Frontend/1.0", "Content-Type" := "application/json"]
  }

  function MergeHeaders(caller: map<string, string>): (h: map<string, string>)
    ensures h.Keys == DefaultHeaders().Keys + caller.Keys
    ensures forall k :: k in caller ==> h[k] == caller[k]
    ensures forall k :: k in DefaultHeaders() && k !in caller ==> h[k] == DefaultHeaders()[k]
  {
    DefaultHeaders() + caller
  }

  // ---------------------------------------------------------------------------------
  // fileToBase64

  /** `dataUrl.split(',')[1]`: the text between the first and the second comma; `None`
      where JavaScript would give `undefined`. */
  function DataUrlPayload(dataUrl: string): (payload: Option<string>)
    ensures payload.Some? ==> ',' !in payload.value
    ensures payload.None? <==> ',' !in dataUrl
  {
    var parts := Text.Split(dataUrl, ',');
    Text.SplitJoin(dataUrl, ',');
    if |parts| >= 2 then Some(parts[1])
    else
      assert parts == [parts[0]];
      assert dataUrl == Text.Join(parts, [',']);
      None
  }

  /** For a header without commas and a base64 body (which never has one), the payload is the
      body exactly. */
  lemma PayloadOfDataUrl(header: string, body: string)
    requires ',' !in header && ',' !in body
    ensures DataUrlPayload(header + [','] + body) == Some(body)
  {
    Text.SplitAtSeparator(header, body, ',');
    Text.SplitNoSeparator(header, ',');
    Text.SplitNoSeparator(body, ',');
  }

  // ---------------------------------------------------------------------------------
  // predictImage

  /** What `predictImage` can be handed. */
  datatype ImageInput =
    | Form(image: Option<ImageFile>, datasetType: string)   // FormData with 'image' and 'dataset_type'
    | FileInput(file: ImageFile)                            // a File or a Blob
    | Other

  /** The JSON body sent to `/api/translate`: exactly these two fields. */
  datatype TranslateRequest = TranslateRequest(image: string, languageType: string)

  /** The language the request carries: a non-empty form `dataset_type` wins over the
      argument (which defaults to 'bisindo' at the call sites). */
  function EffectiveLanguage(input: ImageInput, language: string): (l: string)
    ensures input.Form? && input.datasetType != "" ==> l == input.datasetType
    ensures !(input.Form? && input.datasetType != "") ==> l == language
  {
    if input.Form? && input.datasetType != "" then input.datasetType else language
  }

  /** The file the input carries, or the error raised before anything is read. */
  function InputFile(input: ImageInput): (r: Result<ImageFile, JsError>)
    ensures input.Other? ==> r == Failure(Plain("Invalid image input type"))
    ensures input.Form? && input.image.None? ==> r == Failure(Plain("No image file found in input"))
    ensures r.Success? <==> (input.FileInput? || (input.Form? && input.image.Some?))
  {
    match input
    case Form(image, _) => if image.Some? then Success(image.value) else Failure(Plain("No image file found in input"))
    case FileInput(file) => Success(file)
    case Other => Failure(Plain("Invalid image input type"))
  }

  /** The client object: its base URL and timeout are fixed when it is built. */
  class ApiClient {
    const baseUrl: string
    const timeoutMs: nat

    /** `VITE_API_URL || VITE_API_BASE_URL || default`; "" stands for an unset variable. */
    constructor (apiUrl: string, apiBaseUrl: string)
      ensures apiUrl != "" ==> baseUrl == apiUrl
      ensures apiUrl == "" && apiBaseUrl != "" ==> baseUrl == apiBaseUrl
      ensures apiUrl == "" && apiBaseUrl == "" ==> baseUrl == DefaultBaseUrl
      ensures baseUrl != "" && timeoutMs == TimeoutMs
    {
      baseUrl := if apiUrl != "" then apiUrl else if apiBaseUrl != "" then apiBaseUrl else DefaultBaseUrl;
      timeoutMs := TimeoutMs;
    }

    /** `predictImage(input, language)`. `read` is what `FileReader` produced for the file
        (a data URL, which always contains a comma, or the reader's error) and `transport`
        what `fetch` did with the request. Returns the reply or the error thrown, and the
        request body if one was sent. */
    method PredictImage(input: ImageInput, language: string, read: Result<string, JsError>,
                        transport: Transport<Backend.Prediction>)
      returns (r: Result<Backend.Prediction, JsError>, sent: Option<TranslateRequest>)
      requires read.Success? ==> ',' in read.value
      ensures sent.Some? <==>
        InputFile(input).Success? && ValidateImageFile(InputFile(input).value).Success? && read.Success?
      ensures InputFile(input).Failure? ==> r == Failure(InputFile(input).error)
      ensures InputFile(input).Success? && ValidateImageFile(InputFile(input).value).Failure? ==>
        r == Failure(ValidateImageFile(InputFile(input).value).error)
      ensures InputFile(input).Success? && ValidateImageFile(InputFile(input).value).Success? && read.Failure? ==>
        r == Failure(read.error)
      ensures sent.Some? ==>
        && sent.value == TranslateRequest(DataUrlPayload(read.value).value, EffectiveLanguage(input, language))
        && r == Request(baseUrl, transport)
    {
      sent := None;
      var lang := language;
      var imageFile: Option<ImageFile> := None;
      match input {
        case Form(image, datasetType) =>
          imageFile := image;
          if datasetType != "" {
            lang := datasetType;
          }
        case FileInput(file) =>
          imageFile := Some(file);
        case Other =>
          r := Failure(Plain("Invalid image input type"));
          return;
      }
      if imageFile.None? {
        r := Failure(Plain("No image file found in input"));
        return;
      }
      var valid := ValidateImageFile(imageFile.value);
      if valid.Failure? {
        r := Failure(valid.error);
        return;
      }
      if read.Failure? {
        r := Failure(read.error);
        return;
      }
      var base64Image := DataUrlPayload(read.value).value;
      sent := Some(TranslateRequest(base64Image, lang));
      r := Request(baseUrl, transport);
    }
  }
}
