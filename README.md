# SILENT web client and proxy — a verified model

SILENT turns photographed or filmed hand signs (BISINDO and SIBI alphabets) into text. A
recognition backend does the recognition. This project models the logic in the web client
and its Express proxy that sits around the backend calls:

- **The live camera view.** Its backend connectivity check gates every camera prediction.
- **The live camera transcript.** Predicted letters are admitted into a running sequence
  under a 2500 ms cooldown, a 5000 ms same-letter duplicate window and a 0.2 confidence
  floor. The sequence keeps a 10-deep undo history and manual spaces, and renders as text.
  A guard at the call site keeps replies without a usable letter away from it.
- **The histories.** The shared global history holds at most 50 entries, newest first, and
  drops a repeat of a recent entry seen within 2 s. The translate page keeps a local history
  of 10, of which 5 are shown.
- **The upload panel.** It holds at most ten validated images, added all-or-nothing, with
  remove and clear. Before prediction each image is resized to a longest side of at most
  1280 and its contrast is stretched. The batch run is strictly sequential and sets a
  status on each image. It builds a space-joined letter string and a summary.
- **The API client.** It checks image type and size, maps abort, network and HTTP failures
  to user-facing messages, extracts the base64 payload of a data URL, and dispatches on the
  kind of input it gets before building the request body.
- **The proxy.** It has an upload MIME filter, a batch handler that forwards each file in
  order and isolates failures, the status mapping of the single-image route, the error
  middleware, multer's upload checks, and Express's routing down to the 404 fallback.
- **The prediction card.** It sorts a reply into a confidence band with an icon, and picks
  one interpretation sentence.
- **The shared frame processor.** It computes a sampled brightness factor, runs an in-place
  RGB-only brightness and contrast pass, resolves the canvas defaults, and tests whether the
  video is ready.

Wall-clock time is an explicit `now` parameter in milliseconds. Random ids, the answers of
`fetch`/`axios`, `FileReader` output, drawn pixels and encoded blobs are parameters too.
Operations that change component state are methods of classes whose fields are that state.
Each is proved against a pure specification function, and the lemmas are stated about those
functions. Pixel buffers are `array<Byte>`, updated in place.

Files: `wrappers.dfy` (Option/Result), `text.dfy` (join, split, contains, ASCII upper
case, number printing), `backend.dfy` (the reply record), `pixels.dfy` (clamping, byte
storage, the contrast loop), `camera_capture.dfy`, `history.dfy`, `image_upload.dfy`,
`api_service.dfy`, `server.dfy`, `prediction_result.dfy`, `camera_utils.dfy`.

## Model

| member | source | states |
|---|---|---|
| CameraCapture.Admission | frontend/src/components/CameraCapture.jsx:266-304 | the three checks in source order: cooling down iff under 2500 ms since the last acceptance; a recent duplicate iff past the cooldown and a same letter is younger than 5000 ms; accepted iff past both and the confidence meets the 0.2 floor; too low otherwise |
| CameraCapture.Step | frontend/src/components/CameraCapture.jsx:262-338 | the cooldown clock never moves back and the history stays within 10; an acceptance, a space or a clear snapshots the entries before it, and only an acceptance sets the clock to now; undo restores and pops the newest snapshot or changes nothing |
| CameraCapture.Run | frontend/src/components/CameraCapture.jsx:262-338 | no sequence of letters, spaces, clears and undos moves the cooldown clock back or keeps more than 10 undo snapshots |
| CameraCapture.RenderText | frontend/src/components/CameraCapture.jsx:341 | with one-character letters, the text has one character per entry, each entry's letter, in order |
| CameraCapture.FindRecentSame | frontend/src/components/CameraCapture.jsx:272-275 | returns the first entry with the same letter younger than 5000 ms, and None exactly when there is none |
| CameraCapture.PushSnapshot | frontend/src/components/CameraCapture.jsx:292 | the undo history grows by one up to 10, ends with the new snapshot, and keeps the newest earlier snapshots in order |
| CameraCapture.RunAppend | frontend/src/components/CameraCapture.jsx:262-338 | running two action sequences one after the other is running their concatenation |
| CameraCapture.Letters | frontend/src/components/CameraCapture.jsx:341 | the rendered pieces are the entries' letters, one per entry, in order |
| CameraCapture.RenderAppend | frontend/src/components/CameraCapture.jsx:341 | appending an entry appends its letter to the rendered text |
| CameraCapture.RejectedIsInvisible | frontend/src/components/CameraCapture.jsx:266-304 | a rejected observation leaves entries, undo history and the cooldown clock unchanged |
| CameraCapture.AcceptedAppendsOne | frontend/src/components/CameraCapture.jsx:283-301 | an accepted observation appends exactly one entry and the text grows by its letter; the pre-state is pushed for undo and the clock is set to now |
| CameraCapture.CooldownRejects | frontend/src/components/CameraCapture.jsx:266-269 | any observation less than 2500 ms after the last acceptance is rejected, whatever the letter |
| CameraCapture.DuplicateRejects | frontend/src/components/CameraCapture.jsx:272-280 | after the cooldown, a letter that some entry younger than 5000 ms already has is rejected |
| CameraCapture.ConfidenceFloorBoundary | frontend/src/components/CameraCapture.jsx:283-304 | below 0.2 is rejected and exactly 0.2 is accepted; a missing confidence is rejected |
| CameraCapture.CooldownAfterAcceptance | frontend/src/components/CameraCapture.jsx:266-299 | after an acceptance at t, every observation in [t, t+2500) is rejected whatever happens in between |
| CameraCapture.DuplicateWindowScenario | frontend/src/components/CameraCapture.jsx:266-283 | "A" at t blocks "A" at t+3000 and lets "A" through at t+5001 |
| CameraCapture.TranscriptScenario | frontend/src/components/CameraCapture.jsx:262-341 | letters at 10000 and 12500, a space, and "L" at 17500 render as "AL L" |
| CameraCapture.UndoReverts | frontend/src/components/CameraCapture.jsx:292-334 | undo right after an accepted letter, a space or a clear restores the entries from before it |
| CameraCapture.UndoDrains | frontend/src/components/CameraCapture.jsx:315-322 | each undo pops one snapshot; once the history is empty further undos change nothing |
| CameraCapture.LetterSequence.constructor | frontend/src/components/CameraCapture.jsx:29 | the sequence starts empty with no history and the clock at 0 |
| CameraCapture.LetterSequence.AddLetter | frontend/src/components/CameraCapture.jsx:262-306 | returns true exactly when the three checks pass in order; then one entry is appended with the mode as its source, the pre-state is pushed and the clock is set; otherwise nothing changes |
| CameraCapture.LetterSequence.Clear | frontend/src/components/CameraCapture.jsx:309-313 | empties the entries after pushing them for undo, leaving the clock |
| CameraCapture.LetterSequence.Undo | frontend/src/components/CameraCapture.jsx:315-322 | restores and pops the newest snapshot, or changes nothing when there is none |
| CameraCapture.LetterSequence.AddSpace | frontend/src/components/CameraCapture.jsx:324-338 | always appends a space entry with confidence 1.0 after pushing the pre-state, without moving the clock |
| CameraCapture.LetterSequence.OnPrediction | frontend/src/components/CameraCapture.jsx:381-387 | an unsuccessful reply, an empty letter or "No hand detected" never reaches the accumulator |
| CameraCapture.StartupErrorMessage | frontend/src/components/CameraCapture.jsx:161-173 | permission denied, no camera, camera busy and unsupported constraints each get their own text; any other error shows its message, or the default when it has none |
| CameraCapture.KnownStartupErrorsAreDistinct | frontend/src/components/CameraCapture.jsx:161-173 | a known error's text ignores the browser's message, and the four texts and the default are pairwise different |
| CameraCapture.ConnectivityAsWritten | frontend/src/components/CameraCapture.jsx:42-66 | on a client without an availability check the status is always 'error'; with one it would be 'connected' exactly when the backend is up |
| CameraCapture.Connectivity | frontend/src/components/CameraCapture.jsx:42-66 | the intended check: connected exactly when the backend is up, disconnected exactly when it says it is down, error exactly when the probe throws |
| CameraCapture.CameraMayPredict | frontend/src/components/CameraCapture.jsx:346-352 | a camera prediction goes ahead exactly while streaming, with a video element, and with the backend connected |
| CameraCapture.CameraNeverPredictsAsWritten | frontend/src/components/CameraCapture.jsx:42-352 | with the client as shipped the status is 'error' even when the backend is up, so no camera prediction ever passes the gate |
| CameraCapture.CameraPredictsWhenBackendUp | frontend/src/components/CameraCapture.jsx:42-352 | with the intended check a streaming camera predicts exactly when the backend is up |
| Pixels.Clamp | frontend/src/components/CameraCapture.jsx:250 | the result lies in [lo, hi] and is x when x already does |
| Pixels.StoreByte | frontend/src/components/CameraCapture.jsx:250-252 | storing into the clamped byte array rounds to the nearest integer |
| Pixels.StoreByteMonotone | frontend/src/components/CameraCapture.jsx:250-252 | storing preserves order |
| Pixels.ContrastBrightens | frontend/src/components/CameraCapture.jsx:250-252 | the stretch never darkens a channel at or above 128 |
| Pixels.ContrastDarkens | frontend/src/components/CameraCapture.jsx:250-252 | the stretch never brightens a channel at or below 128 |
| Pixels.ContrastMonotone | frontend/src/components/CameraCapture.jsx:250-252 | a brighter channel never comes out darker |
| Pixels.EnhanceContrast | frontend/src/components/CameraCapture.jsx:249-253 | in place, R, G and B of every pixel are stretched by 1.1 about 128 and clamped to a byte, and alpha is untouched |
| History.LanguageLabel | frontend/src/App.jsx:32 | the tag is the dataset, else the upper-cased selected language, else "UNKNOWN", and is never empty |
| History.Admit | frontend/src/App.jsx:36-53 | a near-duplicate (under 2000 ms, same letter and language, confidence within 0.01) leaves the list unchanged; otherwise the entry goes first and at most 50 are kept in order |
| History.PushLocal | frontend/src/App.jsx:250 | the entry goes first and at most 10 are kept, in order |
| History.Shown | frontend/src/App.jsx:414 | the page lists the first min(n, 5) local entries |
| History.GlobalStaysBounded | frontend/src/App.jsx:24-59 | no sequence of additions and clears takes the global history above 50 |
| History.RepeatWithinWindowIsDropped | frontend/src/App.jsx:37-50 | an admitted reply with a confidence, repeated less than 2000 ms later with the same letter and language, is dropped whatever its image URL and source |
| History.HistoryStore.constructor | frontend/src/App.jsx:22 | the global history starts empty |
| History.HistoryStore.AddToHistory | frontend/src/App.jsx:24-55 | an unsuccessful reply or one without a prediction leaves the history; otherwise the entry is admitted as Admit says |
| History.HistoryStore.ClearHistory | frontend/src/App.jsx:57-59 | the global history becomes empty |
| History.TranslatePage.constructor | frontend/src/App.jsx:228-231 | the page starts on BISINDO with no reply shown and an empty local history |
| History.TranslatePage.HandlePrediction | frontend/src/App.jsx:235-252 | the reply is always shown; only a success goes to the global history and to the front of the local one |
| ImageUpload.ValidationPartitions | frontend/src/components/ImageUpload.jsx:44-52 | every file is kept or reported, never both; the kept files are exactly those of an allowed type within 10 MiB; no errors means all files are kept |
| ImageUpload.ValidateFiles | frontend/src/components/ImageUpload.jsx:38-52 | the forEach collects the valid files and the messages ("invalid type" before "too large") in order |
| ImageUpload.FitWithin | frontend/src/components/ImageUpload.jsx:119-132 | keeps the aspect ratio, the longer side ends at most 1280, exactly 1280 if it was larger, and in-bounds images are unchanged |
| ImageUpload.Preprocess | frontend/src/components/ImageUpload.jsx:119-154 | the resize gives FitWithin's size and the drawn pixels get the 1.1 contrast pass with alpha untouched |
| ImageUpload.Filter | frontend/src/components/ImageUpload.jsx:94-95 | keeps exactly the elements that pass, never more than there were |
| ImageUpload.FilterAppend | frontend/src/components/ImageUpload.jsx:94-95 | filtering keeps relative order (it distributes over concatenation) |
| ImageUpload.UpdateWhere | frontend/src/components/ImageUpload.jsx:199-270 | changes exactly the items with the given id |
| ImageUpload.UpdateOne | frontend/src/components/ImageUpload.jsx:199-205 | with distinct ids, updating by id changes one position only |
| ImageUpload.FilterKeepsDistinct | frontend/src/components/ImageUpload.jsx:94 | removal keeps image ids distinct |
| ImageUpload.Records | frontend/src/components/ImageUpload.jsx:216-261 | one results row per image, in input order, carrying the reply or a failure with the error message |
| ImageUpload.BatchVisitsInOrder | frontend/src/components/ImageUpload.jsx:194-196 | the batch starts images 0, 1, ..., n-1, each exactly once, in order |
| ImageUpload.ItemEventsShape | frontend/src/components/ImageUpload.jsx:196-270 | within one image, processing comes first and a pause can only come last and only before another image |
| ImageUpload.PauseOnlyBetweenItems | frontend/src/components/ImageUpload.jsx:245-248 | every 500 ms pause is followed by the start of an image, and a batch never ends on a pause |
| ImageUpload.SuccessCount | frontend/src/components/ImageUpload.jsx:527-530 | at most the number processed; zero exactly when nothing succeeded, all of them exactly when everything did |
| ImageUpload.FailureCount | frontend/src/components/ImageUpload.jsx:533-536 | at most the number processed; zero exactly when everything succeeded, all of them exactly when nothing did |
| ImageUpload.ConfidenceSum | frontend/src/components/ImageUpload.jsx:541-543 | the sum is undefined (NaN) exactly when some success came back without a confidence |
| ImageUpload.AverageConfidencePercent | frontend/src/components/ImageUpload.jsx:541-543 | 0 when nothing succeeded; undefined (NaN) exactly when some success lacks a confidence |
| ImageUpload.StatusColorsDistinct | frontend/src/components/ImageUpload.jsx:287-295 | the four statuses get four different badge styles |
| ImageUpload.SummaryAddsUp | frontend/src/components/ImageUpload.jsx:524-537 | successful plus failed equals total processed |
| ImageUpload.ConfidenceSumBounded | frontend/src/components/ImageUpload.jsx:543 | with confidences in [0, 1], the sum over successes lies between 0 and their count |
| ImageUpload.AveragePercentBounded | frontend/src/components/ImageUpload.jsx:542-544 | with confidences in [0, 1] the average shown lies in [0, 100] |
| ImageUpload.UploadPanel.constructor | frontend/src/components/ImageUpload.jsx:6-11 | the panel starts with no images, results, string or error, not loading, at index -1 |
| ImageUpload.UploadPanel.AddImages | frontend/src/components/ImageUpload.jsx:36-90 | any invalid file rejects the whole addition with the joined messages; going over 10 rejects it with the count message; otherwise the files are appended in order as ready items |
| ImageUpload.UploadPanel.RemoveImage | frontend/src/components/ImageUpload.jsx:93-96 | removes exactly the items and results with that id, keeping order |
| ImageUpload.UploadPanel.ClearAll | frontend/src/components/ImageUpload.jsx:99-107 | empties images, results, string and error |
| ImageUpload.UploadPanel.ProcessImage | frontend/src/components/ImageUpload.jsx:195-271 | one turn of the loop: only that image changes, to completed with its reply or to error with the message; returns its row, its letter if any, and its events |
| ImageUpload.UploadPanel.RunBatch | frontend/src/components/ImageUpload.jsx:194-272 | the loop takes every image to its final status in order, and collects exactly one results row per image and the usable letters, in order |
| ImageUpload.UploadPanel.PredictAll | frontend/src/components/ImageUpload.jsx:183-284 | an empty selection does nothing; otherwise every image ends completed or error in order, the results are one row per image, and the string is the usable letters joined by spaces |
| ApiService.ValidateImageFile | frontend/src/services/apiService.js:182-206 | passes exactly the four types up to 16 MiB inclusive; the type is checked before the size |
| ApiService.SizeBoundary | frontend/src/services/apiService.js:184-202 | exactly 16 MiB passes, one byte more fails, and a wrong type gets the type message |
| ApiService.HttpErrorMessage | frontend/src/services/apiService.js:67-71 | the body's error field if present, else "HTTP status: statusText" |
| ApiService.Classify | frontend/src/services/apiService.js:79-87 | the error comes out unchanged or as the timeout or network message |
| ApiService.Request | frontend/src/services/apiService.js:31-89 | succeeds exactly when the response is 2xx and its body parses, returning that body; a thrown fetch, a non-2xx status and a body that does not parse each fail with their own error, passed through the same reclassification |
| ApiService.HttpStatusLineSurfaces | frontend/src/services/apiService.js:67-87 | a non-2xx response without an error field surfaces "HTTP status: statusText", unless that text looks like a network failure |
| ApiService.AbortIsTimeout | frontend/src/services/apiService.js:79-81 | an abort always reads as the timeout message, whatever its own text |
| ApiService.ClassifyVerbatim | frontend/src/services/apiService.js:79-87 | abort gives the timeout message; "fetch" or "NetworkError" gives the network message; anything else is rethrown unchanged |
| ApiService.HttpErrorSurfacesBodyError | frontend/src/services/apiService.js:67-87 | a non-2xx body error that does not mention a network failure reaches the caller as is |
| ApiService.FailedFetchIsNetworkError | frontend/src/services/apiService.js:83-85 | the browser's "Failed to fetch" becomes the network message |
| ApiService.HttpErrorMentioningFetchReadsAsNetwork | frontend/src/services/apiService.js:70-85 | a backend error text that contains "fetch" is shown as a connection failure |
| ApiService.MergeHeaders | frontend/src/services/apiService.js:36-40 | caller headers win over the defaults of the same name; other defaults stay |
| ApiService.DataUrlPayload | frontend/src/services/apiService.js:116 | the payload has no comma, and is absent exactly when the URL has none |
| ApiService.PayloadOfDataUrl | frontend/src/services/apiService.js:116 | for a comma-free header and body the payload is the body exactly |
| ApiService.EffectiveLanguage | frontend/src/services/apiService.js:128-138 | a non-empty form dataset_type overrides the language argument |
| ApiService.InputFile | frontend/src/services/apiService.js:135-149 | a non-image input and a form without an image are refused with their messages before anything is read |
| ApiService.ApiClient.constructor | frontend/src/services/apiService.js:3-8 | the base URL is the first set variable or the default, and the timeout is 30000 |
| ApiService.ApiClient.PredictImage | frontend/src/services/apiService.js:128-180 | a request is sent exactly when the input, the file check and the read succeed; its body holds just the payload and the language; each earlier failure is returned unchanged |
| ProxyServer.BackendUrl | frontend/server.js:13 | the configured URL, else the default |
| ProxyServer.FilterExamples | frontend/server.js:22-29 | GIF and WebP are refused, and each of the four listed types passes |
| ProxyServer.FileFilter | frontend/server.js:22-29 | accepts exactly jpeg, jpg, png and bmp; everything else fails with the filter message |
| ProxyServer.FormFor | frontend/server.js:133-140 | the file goes with its name and type; dataset_type is forwarded exactly when it is non-empty |
| ProxyServer.HandlePredict | frontend/server.js:110-170 | 400 without a file, the data on success, the backend's own status and body on its refusal, 500 when there is no response |
| ProxyServer.PredictStatuses | frontend/server.js:112-168 | the single route answers only 200, 400, 500 or the backend's status, and a 200 means a file was sent and the backend answered (or itself refused with 200) |
| ProxyServer.FileResult | frontend/server.js:218-234 | each entry has its index and name; success is true exactly when the backend answered, whatever its body said; other backend fields are kept |
| ProxyServer.SuccessfulCountsReplies | frontend/server.js:243-250 | "successful" is the number of files the backend answered |
| ProxyServer.FailureIsolation | frontend/server.js:193-241 | what happens to one file never changes another file's entry |
| ProxyServer.HandleBatch | frontend/server.js:173-251 | no files gives 400; otherwise one entry per file in order, total = number of files, forms forwarded in order, and one pause between consecutive files |
| ProxyServer.HandleError | frontend/server.js:301-317 | multer's LIMIT_FILE_SIZE gives 400, anything else 500, both with success false |
| ProxyServer.WrongTypeUploadAnswers500 | frontend/server.js:301-317 | the filter's refusal is not a multer error, so a wrong type is answered 500 with the filter message |
| ProxyServer.UploadPassesExactly | frontend/server.js:16-30 | a request gets through multer exactly when it has at most the allowed number of files, all of an allowed type and within 10 MiB |
| ProxyServer.OversizeUploadAnswers400 | frontend/server.js:16-317 | when the count and the types are acceptable, a file over 10 MiB is refused with LIMIT_FILE_SIZE and answered 400 |
| ProxyServer.TooManyBatchFilesAnswer500 | frontend/server.js:173-317 | an eleventh batch file is refused by the count limit, which the middleware answers 500 |
| ProxyServer.RoutePath | frontend/server.js:43-325 | the compared path is the lower-cased path with at most one trailing slash removed |
| ProxyServer.RouteOf | frontend/server.js:33-325 | every OPTIONS request is a CORS preflight; a static file is served exactly for GET or HEAD of a file in the public directory; the 404 handler answers exactly when no registered method and path matches; a load_model request carries its one non-empty path segment |
| ProxyServer.CaseIgnored | frontend/server.js:43-325 | letter case never changes which route matches |
| ProxyServer.TrailingSlashIgnored | frontend/server.js:43-325 | one trailing slash never changes which route matches |
| ProxyServer.GetBatchIsNotFound | frontend/server.js:173-325 | a batch sent with GET is not a route and gets the 404 |
| ProxyServer.PredictWithTrailingSlash | frontend/server.js:110 | "/api/predict/" reaches the single-image handler |
| ProxyServer.PostToStaticFileIsNotFound | frontend/server.js:43-325 | a POST naming a static file is not served by the static directory and ends at the 404 |
| ProxyServer.UpperCaseHealth | frontend/server.js:58 | "/HEALTH" reaches the local health handler |
| ProxyServer.LoadModelWithTrailingSlash | frontend/server.js:269 | the dataset segment reaches the handler with its case kept and the trailing slash dropped |
| ProxyServer.NotFoundResponse | frontend/server.js:320-325 | the fallback answers 404 with success false |
| PredictionView.LevelOf | frontend/src/components/PredictionResult.jsx:8-12 | high iff at least 0.8, medium iff in [0.6, 0.8), low iff below 0.6 |
| PredictionView.IconAgreesWithLevel | frontend/src/components/PredictionResult.jsx:14-18 | the icon always agrees with the level |
| PredictionView.LevelMonotone | frontend/src/components/PredictionResult.jsx:8-12 | a higher confidence never gets a lower band |
| PredictionView.EffectiveConfidence | frontend/src/components/PredictionResult.jsx:45 | a missing confidence counts as 0 |
| PredictionView.MissingConfidenceIsLow | frontend/src/components/PredictionResult.jsx:45-46 | a reply without a confidence is banded low |
| PredictionView.ExactlyOneInterpretation | frontend/src/components/PredictionResult.jsx:127-130 | exactly one sentence is shown for every confidence, in agreement with the band |
| PredictionView.Render | frontend/src/components/PredictionResult.jsx:4-48 | no reply shows nothing; a failure shows its error or the default text; a success shows the letter with the band and icon of its confidence and one interpretation |
| CameraUtils.Resolve | frontend/src/utils/cameraUtils.js:15-21 | each missing option takes its default |
| CameraUtils.DefaultSettings | frontend/src/utils/cameraUtils.js:5-21 | with no options the canvas is 640 x 480, mirrored, with preprocessing |
| CameraUtils.SampleCountIsQuarter | frontend/src/utils/cameraUtils.js:115 | ceil(n/16) pixels are sampled from n bytes: one pixel in four |
| CameraUtils.SampledTotalBounds | frontend/src/utils/cameraUtils.js:115-124 | the sampled luma sum lies between 0 and 255 per sampled pixel |
| CameraUtils.BrightnessFactor | frontend/src/utils/cameraUtils.js:110-136 | for a non-empty buffer the factor lies in [0.7, 1.5]; it is absent (NaN) exactly for an empty buffer |
| CameraUtils.BrightnessOfUniformFrame | frontend/src/utils/cameraUtils.js:121-133 | a uniform grey frame of any size gets 128 over its grey, clamped to [0.7, 1.5]; black gets 1.5, mid-grey 1 and white the 0.7 floor |
| CameraUtils.CalculateOptimalBrightness | frontend/src/utils/cameraUtils.js:110-136 | the sampling loop computes BrightnessFactor |
| CameraUtils.PreprocessMonotone | frontend/src/utils/cameraUtils.js:78-85 | a brighter channel never comes out darker |
| CameraUtils.PreprocessExtremes | frontend/src/utils/cameraUtils.js:78-85 | black stays black, and white stays white unless the frame is dimmed |
| CameraUtils.PreprocessPixel | frontend/src/utils/cameraUtils.js:72-91 | rewrites the R, G and B of one pixel and nothing else |
| CameraUtils.SampleFrame | frontend/src/utils/cameraUtils.js:115-124 | the sampling loop sums the luma of every fourth pixel and counts those pixels |
| CameraUtils.PreprocessPass | frontend/src/utils/cameraUtils.js:71-92 | the pixel loop rewrites every R, G and B byte through the channel function and keeps every alpha byte |
| CameraUtils.ApplyPreprocessing | frontend/src/utils/cameraUtils.js:59-105 | in place, every R, G and B byte is scaled by the frame's factor, stretched by 1.15 and stored as a byte, and every alpha byte is unchanged |
| CameraUtils.CreateStandardizedCanvas | frontend/src/utils/cameraUtils.js:15-53 | uses the resolved options and preprocesses exactly when that option is on |
| CameraUtils.IsVideoReady | frontend/src/utils/cameraUtils.js:197-204 | ready iff the element exists, readyState is at least 2, both dimensions are positive, and it is neither paused nor ended |
| CameraUtils.CanvasToBlob | frontend/src/utils/cameraUtils.js:154-164 | the encoder's blob, or rejection with "Failed to create blob from canvas" when there is none |
| CameraUtils.ProcessVideoFrame | frontend/src/utils/cameraUtils.js:170-192 | any failure becomes "Failed to process video frame for prediction" |
| Text.SplitJoin | frontend/src/services/apiService.js:116 | splitting at a character and joining back gives the string, and no piece contains the character |
| Text.SplitAtSeparator | frontend/src/services/apiService.js:116 | splitting at a separator between two strings splits each side apart |
| Text.ContainsInside | frontend/src/services/apiService.js:83 | a string contains any piece placed inside it |
| Text.Upper | frontend/src/App.jsx:32 | upper-casing keeps the length and maps each character |
| Text.NatToString | frontend/src/components/ImageUpload.jsx:61 | a number prints as decimal digits that denote it, with no leading zero |
| Text.Lower | frontend/server.js:43-325 | lower-casing keeps the length and maps each ASCII capital to its small letter |
| Text.LowerOfLowercase | frontend/server.js:43-325 | a string without capitals is its own lower case |
| Text.ConcatSingles | frontend/src/components/CameraCapture.jsx:341 | concatenating one-character strings spells them out in order |

## Left out

- Browser media and canvas work (`getUserMedia`, drawing, mirroring, the blur filter, JPEG/`toBlob` encoding, `FileReader`, object URLs) is not modelled. What it produces enters as parameters: drawn pixels, data URLs, blobs and reader errors.
- Timers, intervals, auto-capture, countdown, the startup retry and the React render cycle are not modelled. Pacing delays appear only as `Paused` events or a pause count. The time an operation runs at is the `now` parameter.
- The network (`fetch`, `AbortController`, `axios`, Express's server loop, CORS headers, body parsing, templates, reading static files) is not modelled. Only the decisions taken on its results are: which handler a method and path reach, and the order in which multer applies its file count, type filter and size limit.
- The `/health`, `/api/health`, `/api/models` and `/api/load_model` handlers, `healthCheck`, `getModelInfo`, `testConnectionOnInit`, `debugFullFlow`, `canvasToBase64` and `waitForStableFrame` are not modelled. They forward or log without a decision beyond the mappings above. `RouteOf` still names them.
- Numbers are exact reals, not IEEE doubles. The 1.1 and 1.15 gains and the luma weights are exact, and the model does not claim bit-exact output. Storing into a `Uint8ClampedArray` is modelled as clamp-then-round-half-to-even.
- NaN is modelled only where it decides something. A missing confidence is `None`: never close to another in the history and below every floor. An empty frame's brightness factor is `None`. Elsewhere, undefined fields of a backend reply are "" or `None`.
- ImageUpload.FitWithin: returns real sizes. Assigning them to a canvas truncates them to integers, which is not modelled.
- ImageUpload.UploadPanel.AddImages: the source appends once all previews have been read, asynchronously. The model appends immediately, so two additions racing each other are not modelled. The random ids are parameters, assumed distinct and new.
- ImageUpload.UploadPanel.PredictAll: a reply that is not an object (a `null` body) would throw after its results row is recorded, which is not modelled. Backend replies are always `Prediction` records.
- ApiService.ApiClient.PredictImage: the data URL handed over by `FileReader` is assumed to contain a comma, as such URLs do. Without one the source's handler throws inside a callback and the call never settles; this case is not modelled.
- ApiService.Request: JSON bodies are typed records, so a body that parses to something else is not modelled.
- Text.Upper: handles ASCII letters only. JavaScript's full Unicode `toUpperCase` is not modelled.
- Text.Lower: handles ASCII letters only, so route matching of non-ASCII paths is not modelled. Percent-decoding of the `:dataset_type` parameter is not modelled either; the segment is passed on as written.
- ProxyServer.UploadError: a file sent under a field name other than 'image' or 'images' is also refused by multer as an unexpected field; the model takes every file to be sent under the expected name.
- ImageUpload.StatusColor: the source's default branch (gray, for a status outside the four) has no counterpart, since the status type has only the four values.
- The page components of `App.jsx` (home, about, history pages, routing), logging, clipboard and `alert` calls hold no decisions and are not modelled.
- In three places the code does something other than the design description. The model follows the code:
  - the camera request carries no mirror flag;
  - the batch run's replies do not feed the live transcript;
  - an upload is marked completed for any reply it gets back, including one with `success: false`.

## Findings

| source | as written | input that shows it | evidently intended | confidence | as-written member | corrected member |
|---|---|---|---|---|---|---|
| frontend/src/components/CameraCapture.jsx:45 | the connectivity check calls `apiService.isBackendAvailable()`, which the exported debug client does not define; the TypeError is caught and the status becomes 'error', so `predictFromCamera` always stops at its gate (lines 349-352) | any mount of the camera view, with the backend up | ask the backend through a method the client has (its health check) and set 'connected' when it answers | not executed | CameraCapture.CameraNeverPredictsAsWritten | CameraCapture.CameraPredictsWhenBackendUp |
