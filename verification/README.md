# Vital-sensing demo: a Dafny model

The demo measures pulse and blood pressure from a short selfie clip. This project models its core
in Dafny and proves properties of the model.

- **Measurement screen (`app/page.tsx`).** The model covers:
  - the face-alignment geometry that decides whether the face sits inside the on-screen oval;
  - the controller that starts, aborts, resumes and finishes a six-second take;
  - the upload of the take, with a random fallback result when the service fails;
  - the scoring that grades the readings.
- **Report lookup page (`app/report/page.tsx`).** The model covers:
  - the score and the five-step verdict;
  - the per-reading labels;
  - the four-digit input filter;
  - the search / loading / found / not-found / error state machine.
- **Server client of the vital-sensing service (`lib/online-doctor.ts`).** This is the login, the upload, and the success test and payload unwrapping of the replies.
- **Upload route (`app/api/vital-sensing/route.ts`).** This is the Basic credential, the login it tolerates failing, and the three response envelopes.
- **Report store (`lib/reportService.ts`).** This covers saving a report as a new row and listing the newest hundred.
- **Command-line check script (`docs/online-doctor/test-online-doctor-vital-sensing.ts`).** The model covers:
  - option lookup and reply parsing;
  - the success test of each step;
  - upload-size preparation;
  - login and user-id derivation;
  - the signal unwrap and the required-field check before saving.

How JavaScript values and the browser appear in the model:

- **JavaScript values** are the `Json.Js` datatype, with `undefined` as its own case.
- **JavaScript rules** are spelled out in `Json`: truthiness, `??`, `||`, `String(x)`, `Number(x)`, and the `TypeError` thrown when a property is read from `null` or `undefined`. `parseFloat` and `toFixed(2)` are in `JsNumber`. All numbers are exact reals.
- **HTTP exchanges** are values. A request is data. A reply is given, and carries both its text and what `JSON.parse` makes of it.
- **Browser callbacks** of the measurement screen each run to completion on one event loop. The screen is therefore one state record with one transition per callback.

Modules, one per file:

| module | role |
|---|---|
| `Wrappers` | `Option` and `Result` |
| `Strings` | digits, join/split, trim, and the digit filter |
| `JsNumber` | `parseFloat`, `Number(string)` and `toFixed(2)` |
| `Json` | the JavaScript value model |
| `Vitals` | the score bands and labels both pages use |
| `Alignment` | `detectFace` |
| `Capture` | the measurement screen's controller |
| `CaptureProofs` | the controller's invariants |
| `CaptureAsWritten` | the screen's code as written, where it departs from intent |
| `Lookup` | the report page |
| `Http` | requests, replies and uploads |
| `OnlineDoctor` | `lib/online-doctor.ts` |
| `VitalRoute` | `app/api/vital-sensing/route.ts` |
| `ReportService` | `lib/reportService.ts` |
| `SensingScript` | the check script |

## Model

| member | source | states |
|---|---|---|
| Vitals.Points | app/page.tsx:18-20 | A reading adds at most two points, and it adds any only when it parses as a number (NaN fails every band). |
| Vitals.Score | app/page.tsx:15-20 | The score of three readings never exceeds 6. |
| Vitals.Evaluation | app/page.tsx:15-24 | 良好 exactly when the score is at least 5, やや注意 exactly when it is 3 or 4, 要確認 exactly when it is at most 2. |
| Vitals.VitalStatus | app/page.tsx:25-31 | The label is "—" exactly when the kind is none of bpm, sys, dia. |
| Vitals.StatusMatchesPoints | app/page.tsx:18-29 | For each kind, the label shown next to a reading stands for exactly the points that reading adds to the score (正常 2, やや注意 1, 要確認 0). |
| Vitals.ScoreIsSumOfStatuses | app/page.tsx:15-31 | The score is the sum of what the three displayed labels stand for. |
| Vitals.PointsCharacterised | app/page.tsx:18-20 | With nested bands, two points exactly inside the normal band and at least one exactly inside the borderline band; the three bands used are nested. |
| Vitals.GoodNeedsAllReadings | app/page.tsx:15-21 | A measurement can only be graded 良好 when all three readings parse. |
| Alignment.Classify | app/page.tsx:147-193 | "no-face" exactly when the video, detector, model or frame data is missing or nothing is detected; "inside" exactly when the mirrored box passes the oval, centring and size tests; "outside" otherwise; never "loading". |
| Alignment.AlignedIffClosedForm | app/page.tsx:156-192 | The screen's step-by-step test, divisions and all, equals a closed form in frame fractions (within 8.75% of the side edges, centre within 18.75%, width strictly between 22.5% and 90%, and so on). |
| Alignment.BelowByProduct | app/page.tsx:184-186 | For a positive divisor, the JavaScript comparison `a / d < c` holds exactly when `a < c * d`. |
| Alignment.AboveByProduct | app/page.tsx:188-190 | For a positive divisor, `a / d > c` holds exactly when `a > c * d`. |
| Alignment.NoFrameNotAligned | app/page.tsx:188-190 | A frame of zero width or height never passes: the size ratios become infinite or NaN. |
| Alignment.MirrorInvariant | app/page.tsx:160-161 | A box and its mirror image are accepted together. |
| Alignment.InsideNeedsDetection | app/page.tsx:150-154 | "inside" implies the model loaded, the frame had data and a face was found. |
| Alignment.CentredBoxAccepted | app/page.tsx:167-192 | A centred box of half the frame's size is accepted. |
| Capture.StopCamera | app/page.tsx:124-128 | The loop, the interval and the camera end; ending the camera stops every recorder still recording; nothing else changes. |
| Capture.BeginRecording | app/page.tsx:199-235 | Without a camera nothing changes; otherwise a fresh recorder starts, chunks empty, countdown 6, recording screen, interval set. |
| Capture.OnModelLoaded | app/page.tsx:109-122 | Only the model-loaded flag changes, to true. |
| Capture.OnCameraOpened | app/page.tsx:285-295 | The camera is on, the camera screen shows, the loop is scheduled and the status is "loading". |
| Capture.OnCameraFailed | app/page.tsx:285-296 | The error screen shows with the camera error, and no camera, loop or take is started. |
| Capture.OnStartRecording | app/page.tsx:302-310 | Without a camera or a face inside, only the guide changes; otherwise `hasStarted` is set and recording begins. |
| Capture.OnFrame | app/page.tsx:242-245 | A frame starts a detection and changes nothing else. |
| Capture.Abort | app/page.tsx:251-268 | A take the face left is discarded: not recording, no chunks, countdown 6, camera screen, interval cleared, the guide naming no-face or outside; `hasStarted`, the camera and the loop are kept. |
| Capture.OnDetected | app/page.tsx:243-277 | The settled detection sets the status, classified with the current model flag, and schedules the next frame. |
| Capture.OnCountdownTick | app/page.tsx:228-234 | The countdown drops by one; at zero the interval clears and the recorder stops if still recording; the screen, the take flag and the sent clips are untouched. |
| Capture.OnData | app/page.tsx:207 | A non-empty blob is appended to the chunks; an empty one changes nothing; nothing else changes. |
| Capture.OnRecorderStopped | app/page.tsx:208-213 | Ignored when no take runs; otherwise the take ends, `hasStarted` clears, the camera stops, the screen analyses and the WebM clip goes to conversion. |
| Capture.OnConverted | app/page.tsx:215-225 | The MP4 on success, or the original WebM on failure, is handed to the upload exactly once. |
| Capture.SendOutcome | app/page.tsx:314-337 | The service's five fields when it answers `code === 200` with data, the fallback result in every other case. |
| Capture.OnApiReplied | app/page.tsx:314-337 | The upload always ends on the result screen, with the outcome above, and the pipeline is idle. |
| Capture.OnReset | app/page.tsx:342-346 | Start screen, no result, countdown 6, no face, no chunks, take and start flags cleared, camera and loop stopped. |
| CaptureProofs.InitInv | app/page.tsx:36-56 | The screen mounts in a consistent state. |
| CaptureProofs.NextPreservesInv | app/page.tsx:199-346 | Every event the browser can deliver keeps the state consistent: a take runs exactly on the recording screen, the camera and loop run together, only the take's recorder records, a result exists exactly on the result screen. |
| CaptureProofs.RunPreservesInv | app/page.tsx:199-346 | Every state reachable by any sequence of deliverable events is consistent. |
| CaptureProofs.SendAccounting | app/page.tsx:208-225 | Each event adds exactly one to the clips sent plus the take in conversion per take it submits, and a take is only submitted while no earlier one is in flight. |
| CaptureProofs.SentOncePerTake | app/page.tsx:208-225 | Over any run, the clips sent plus the take in conversion equal the takes submitted: none is lost or sent twice. |
| CaptureProofs.AbortResumeExclusive | app/page.tsx:251-273 | Abort and auto-resume never both fire for one detection, because the abort guard needs a take running and the resume guard needs none. |
| CaptureProofs.DetectionTick | app/page.tsx:243-277 | A face not inside during a take aborts it, keeping `hasStarted`; a face inside after a started take resumes it; otherwise only the status changes. |
| CaptureProofs.AbortedTakeNotSubmitted | app/page.tsx:209 | The stop event of an aborted take, arriving before a resume, converts and sends nothing. |
| CaptureProofs.ResetIdempotent | app/page.tsx:124-128 | Stopping the camera or resetting twice is the same as once. |
| Capture.MockResult | app/page.tsx:329-333 | Read back with `parseFloat`, the fallback pulse lies in 65–84, systolic 110–134, diastolic 68–82 and LTv 1.20–2.00. |
| Capture.DrawnReading | app/page.tsx:329-331 | An integer drawn into bounds and written with `toString()` reads back as itself, so within the same bounds. |
| CaptureProofs.MockIsGood | app/page.tsx:329-334 | The fallback result always grades 良好. |
| CaptureProofs.FailedUploadShowsGoodResult | app/page.tsx:319-335 | An upload that fails in any way still ends on the result screen with a 良好 result. |
| CaptureAsWritten.StaleModelFlagCounterexample | app/page.tsx:147-194 | See Findings. |
| CaptureAsWritten.LoopOutlivesCameraCounterexample | app/page.tsx:124-128 | See Findings. |
| Lookup.ComputeScore | app/report/page.tsx:105-114 | The stored report's computed score never exceeds 6. |
| Lookup.ComputeScoreIsSumOfStatuses | app/report/page.tsx:105-145 | The computed score is the sum of what the page's labels for bpm, sys (`bpv1`) and dia (`bpv0`) stand for. |
| Lookup.SameScoreAsCapture | app/report/page.tsx:103-114 | The lookup page scores a measurement exactly as the measurement screen does. |
| Lookup.FieldStatus | app/report/page.tsx:126-145 | "—" exactly for an unknown kind. |
| Lookup.VerdictOf | app/report/page.tsx:119-123 | Excellent exactly at 6 or more, Good in [5,6), Fair in [3,5), Caution in [1,3), Check below 1 or for NaN. |
| Lookup.Evaluation | app/report/page.tsx:116-123 | The verdict is the first threshold the effective score (stored, else computed) reaches: 6 絶好調, 5 良好, 3 普通, 1 やや注意; 要確認 below 1 or for NaN. |
| Lookup.VerdictMonotone | app/report/page.tsx:119-123 | A higher score never gives a lower verdict. |
| Lookup.EffectiveScore | app/report/page.tsx:118 | A null or missing stored score falls back to the computed one; a stored number is used as it is. |
| Lookup.ComputedVerdictRefinesGrade | app/report/page.tsx:116-123 | Without a stored score, the five verdicts refine the measurement screen's three grades; Excellent exactly when all three readings are normal, Check exactly when all three need checking. |
| Lookup.StoredScoreDecides | app/report/page.tsx:118 | With a stored score, the verdict depends on nothing else. |
| Lookup.Sanitize | app/report/page.tsx:246 | The filtered input is the first (at most) four digits of the raw input, in order. |
| Lookup.SanitizeFixpoint | app/report/page.tsx:246 | Filtering leaves a text unchanged exactly when it is at most four digits. |
| Lookup.SanitizeIdempotent | app/report/page.tsx:246 | Filtering twice is filtering once. |
| Lookup.SanitizeAppend | app/report/page.tsx:246 | Typing more characters extends the filtered input by their digits, up to four. |
| Lookup.Classify | app/report/page.tsx:207-241 | Found exactly for an ok reply whose JSON has a truthy `report`; not-found exactly for 404 or an ok reply without one; error exactly for a timeout, a rejected fetch, another status outside 200-299, or an ok reply whose body is not JSON or is `null`. |
| Lookup.StartSearch | app/report/page.tsx:200-206 | A trimmed id that is not four digits changes nothing; otherwise loading, no report, no error message. |
| Lookup.AutoSearch | app/report/page.tsx:193-197 | The search starts by itself only for a four-digit input equal to the URL id while the page is in search. |
| Lookup.Prefill | app/report/page.tsx:185-190 | A four-digit URL id fills the input; nothing else changes. |
| Lookup.Mount | app/report/page.tsx:184-197 | A four-digit URL id mounts straight into loading that id; any other mounts in search with an empty input. |
| Lookup.OnInput | app/report/page.tsx:193-253 | The input becomes the filtered text. While loading nothing else changes. From any other step, the URL lookup starts exactly when the new input differs from the old and is the URL's four-digit id. Otherwise search keeps its page, and found, not-found and error return to search without the report. |
| Lookup.OnSettled | app/report/page.tsx:216-241 | The step follows the classified outcome, a found report is kept, an error sets the error message. |
| Lookup.OnReset | app/report/page.tsx:260-266 | Search, empty input, no report, no message, plain URL. |
| Lookup.MountInv | app/report/page.tsx:184-197 | The page mounts in a consistent state. |
| Lookup.NextPreservesInv | app/report/page.tsx:184-266 | Every user or fetch event keeps the page consistent: the input is at most four digits, a lookup is pending exactly while loading, a truthy report is held exactly when found. |
| Lookup.TypedPreservesInv | app/report/page.tsx:244-253 | Typing keeps the page consistent. |
| Lookup.OnSubmit | app/report/page.tsx:255-258 | Submitting starts loading exactly the trimmed input when it is four digits, with no report and no message; any other input leaves the page unchanged. |
| Lookup.SubmitTypedId | app/report/page.tsx:244-258 | Since the input holds only filtered digits, submitting looks up the typed id itself when it has four digits and does nothing when it has fewer. |
| Lookup.SubmitAlwaysSearches | app/report/page.tsx:255-258 | Submitting a full four-digit input always starts loading that id. |
| Lookup.FoundUrlIsQuiet | app/report/page.tsx:228-231 | After a report is found, the URL carries the id that was searched, so the auto-search does not fire again. |
| Lookup.TypingWhileLoading | app/report/page.tsx:248-252 | A property of the input handler alone, since the form is hidden while loading: it leaves a loading page's step and pending lookup alone. |
| Lookup.ResetIdempotent | app/report/page.tsx:260-266 | Resetting twice is resetting once. |
| Lookup.UrlLookupShowsReport | app/report/page.tsx:184-231 | A page opened with a four-digit id whose lookup returns a report shows that report. |
| Strings.SplitJoinBar | lib/online-doctor.ts:127-128 | Joining texts without a bar with " \| " and splitting again gives them back. |
| Strings.TrimIdempotent | app/report/page.tsx:201 | Trimming twice is trimming once. |
| JsNumber.StringToNumber | app/report/page.tsx:118-119 | `Number(text)`: blank text is 0; a text that is in full a decimal literal, with or without an exponent, reads as `parseFloat` of the trimmed text; anything else is NaN. |
| JsNumber.ParseExponentText | app/report/page.tsx:106-108 | `parseFloat` and `Number` read digits, `e` and digits as the first number times ten to the power of the second. |
| JsNumber.ParseNegativeExponentText | app/report/page.tsx:106-108 | Digits, `e-` and digits read as the first number scaled down by the second number of places. |
| JsNumber.IncompleteExponentIgnored | app/report/page.tsx:106-108 | A trailing `e` with no digits is not read by `parseFloat` (`"5e"` is 5) and makes `Number` NaN. |
| JsNumber.ScaleUp | app/report/page.tsx:106-108 | Scaling up by `x` places is multiplying by ten to the power `x`. |
| JsNumber.ScaleDown | app/report/page.tsx:106-108 | Scaling down by `x` places is undone by multiplying by ten to the power `x`. |
| JsNumber.ToFixed2 | app/page.tsx:333 | `toFixed(2)` writes the whole part, a point and exactly two digits, after a minus sign exactly for a negative number. |
| JsNumber.ToFixed2ReadsBack | app/page.tsx:333 | `toFixed(2)` of a non-negative number reads back within half a hundredth. |
| Json.Prop | lib/online-doctor.ts:61 | Reading a property fails exactly on `null` or `undefined`, with the TypeError V8 writes, and otherwise gives the member. |
| Json.ToNumber | app/report/page.tsx:119-122 | The relational comparison's `Number(x)`: numbers as they are, texts as above, objects and `undefined` NaN. |
| OnlineDoctor.BaseUrl | lib/online-doctor.ts:9 | The configured base URL, or the fixed default when unset. |
| OnlineDoctor.LoginRequest | lib/online-doctor.ts:31-48 | Refused exactly when the e-mail or password is unset or empty; otherwise a form of exactly `mailaddress` and `password`. |
| OnlineDoctor.TokenOf | lib/online-doctor.ts:50-67 | A token exactly when the reply is JSON with `code` the number 200 and a `data` present; the token is `data.access_token`. |
| OnlineDoctor.GetAccessToken | lib/online-doctor.ts:31-68 | No request at all without credentials; otherwise exactly one login request. |
| OnlineDoctor.UploadFile | lib/online-doctor.ts:86-88 | A `File` is sent as it is; a bare `Blob` becomes `vital_scan.mp4`, keeping its size and its type, or `video/mp4` without one. |
| OnlineDoctor.UploadFileIdempotent | lib/online-doctor.ts:86-88 | Wrapping an uploaded file again changes nothing. |
| OnlineDoctor.SignalRequest | lib/online-doctor.ts:90-109 | Exactly the file and the patient id `3134_0`, with the token as a bearer credential. |
| OnlineDoctor.BusinessCode | lib/online-doctor.ts:124 | A numeric `code` as it is, anything else 0. |
| OnlineDoctor.SignalFailed | lib/online-doctor.ts:123-125 | A failure exactly for an HTTP status of 400 or more, a numeric `code` of 400 or more, or `error` strictly `true`; a code sent as text does not count. |
| OnlineDoctor.ErrorText | lib/online-doctor.ts:126-129 | A message array is joined with " \| "; a non-empty message text is thrown as it is; a falsy message gives the fixed Vietnamese text. |
| OnlineDoctor.ErrorTextSplits | lib/online-doctor.ts:127-130 | A list of messages can be recovered from the thrown text by splitting at " \| ". |
| OnlineDoctor.Unwrap | lib/online-doctor.ts:134-135 | The readings are never null; a falsy `data` gives `{}`. |
| OnlineDoctor.UnwrapPrefersEnhanced | lib/online-doctor.ts:135 | An enhanced result's data wins over the plain data. |
| OnlineDoctor.UnwrapPlain | lib/online-doctor.ts:134-135 | Without an enhanced result, the `data` object itself. |
| OnlineDoctor.SignalOutcome | lib/online-doctor.ts:116-137 | Readings exactly when the reply is a non-null JSON body with neither an HTTP nor a business failure; a failure throws the error text; a body that is not JSON throws. |
| OnlineDoctor.AnalyzeVitalSignal | lib/online-doctor.ts:76-138 | Without credentials nothing is sent. A failed login, or a token that is not a string, ends after the login with that error. A string token leads to the login and one upload with that token, and the outcome is exactly that of the upload's reply. |
| OnlineDoctor.AnalysisSendsClipOnce | lib/online-doctor.ts:80-131 | A successful analysis sent the login form, then the clip once, and the service reported no failure. |
| VitalRoute.BasicAuthHeader | app/api/vital-sensing/route.ts:13-16 | No header exactly when the id or the password is empty; otherwise a `Basic ` header. |
| VitalRoute.BasicAuthRoundTrip | app/api/vital-sensing/route.ts:13-16 | Decoding the header and cutting at the first colon gives back the id and the password. |
| VitalRoute.LoginRequest | app/api/vital-sensing/route.ts:19-32 | No login exactly without credentials; otherwise the two-field form with the Basic header, if any. |
| VitalRoute.TokenOf | app/api/vital-sensing/route.ts:34-39 | A token exactly when the reply is JSON with `code` 200 and `data` present. |
| VitalRoute.Token | app/api/vital-sensing/route.ts:54-55 | The login's token when both credentials are set and the login succeeds; any failure to log in leaves the empty token. |
| VitalRoute.SignalRequest | app/api/vital-sensing/route.ts:58-70 | The clip alone, as a file renamed `vital_scan.mp4` and otherwise unchanged, with the header "Bearer " and the token exactly when the token is truthy. |
| VitalRoute.Envelope | app/api/vital-sensing/route.ts:72-93 | 200 with `{code: 200, data}` exactly for code 200 with truthy data; otherwise 400 with the service's message or the fixed text. 500 exactly for a failed fetch, a body that is not JSON, or a null body, carrying the fetch error, the not-JSON text or the TypeError. |
| VitalRoute.Post | app/api/vital-sensing/route.ts:43-94 | No clip: 400 with nothing sent; a body that is not a form: 500; otherwise exactly the route's login when both credentials are set, then one upload, answered with the envelope; a failure to read the form answers 500 with its message; the status is always 200, 400 or 500. |
| VitalRoute.LoginFailureIsSwallowed | app/api/vital-sensing/route.ts:54-70 | A failed login still sends the clip, without an `Authorization` header. |
| VitalRoute.SuccessPassesDataThrough | app/api/vital-sensing/route.ts:78-80 | The service's data is passed through unchanged. |
| ReportService.Insert | lib/reportService.ts:38-44 | One row is appended, with a rowid above every existing one. It holds the new id, the time given, and exactly the saved bpm, bpv1, bpv0, S2, LTv, score and status key. The table before it is unchanged. |
| ReportService.Latest | lib/reportService.ts:47-49 | No row for an empty table; otherwise a row of the table with the largest rowid. |
| ReportService.SaveReport | lib/reportService.ts:34-52 | The table gains the new row and the id returned is the one the new row was given. |
| ReportService.InsertByTime | lib/reportService.ts:62 | Placing a row into a newest-first list keeps it newest first and adds exactly that row. |
| ReportService.SortByTime | lib/reportService.ts:62 | The sorted rows are newest first and a permutation of the table. |
| ReportService.SortedCut | lib/reportService.ts:62-63 | The first rows of a newest-first list are at least as new as every row cut off. |
| ReportService.Newest | lib/reportService.ts:59-65 | At most 100 rows (all of them when fewer), newest first, drawn from the table, and no row left out is newer than one listed. |
| ReportService.ToTeamReport | lib/reportService.ts:67-80 | Every field is carried over (`status_key` as `statusKey`); the time is absent exactly for 0, else it is the seconds as whole milliseconds. |
| ReportService.GetAllReports | lib/reportService.ts:57-81 | One report per listed row, in order, the present times non-increasing. |
| ReportService.SavedHeadsListing | lib/reportService.ts:34-81 | A report saved later than every stored one heads the listing, with its new id, every column it was saved with, and its time in milliseconds. |
| SensingScript.ArgIndex | docs/online-doctor/test-online-doctor-vital-sensing.ts:96 | The index of the first occurrence of the flag, or -1 exactly when it is absent. |
| SensingScript.GetArg | docs/online-doctor/test-online-doctor-vital-sensing.ts:95-99 | The word after the first occurrence of the flag; nothing when the flag is absent or last. |
| SensingScript.GetArgAppended | docs/online-doctor/test-online-doctor-vital-sensing.ts:95-99 | A flag appended with its value reads back as that value. |
| SensingScript.GetMessage | docs/online-doctor/test-online-doctor-vital-sensing.ts:130-133 | Nothing for a missing or empty message; a text as it is. |
| SensingScript.GetMessageAgreesWithLibrary | docs/online-doctor/test-online-doctor-vital-sensing.ts:130-133 | The script and the server library render a present message alike. |
| SensingScript.GetMessageSplits | docs/online-doctor/test-online-doctor-vital-sensing.ts:130-133 | A list of messages is recovered by splitting at " \| ". |
| SensingScript.ParseResponse | docs/online-doctor/test-online-doctor-vital-sensing.ts:152-161 | Empty text gives the empty text, text that is not JSON gives the text, anything else the parsed body; the status is kept. |
| SensingScript.TextReplyJudgedByStatus | docs/online-doctor/test-online-doctor-vital-sensing.ts:152-169 | A reply that is empty or not JSON fails the step exactly on a status outside 200-299, and the failure quotes its text. |
| SensingScript.EnsureApiSuccess | docs/online-doctor/test-online-doctor-vital-sensing.ts:163-179 | A failure exactly when a text body has a non-2xx status, or another body has a non-2xx status, `error: true` or a numeric code of 400 or more; the message names the step. |
| SensingScript.ScriptAtLeastAsStrictAsLibrary | docs/online-doctor/test-online-doctor-vital-sensing.ts:171-178 | Whatever the library rejects the script rejects; on a 2xx status they agree exactly. |
| SensingScript.RedirectSeparatesThem | docs/online-doctor/test-online-doctor-vital-sensing.ts:174 | A redirect status is rejected by the script and not by the library. |
| SensingScript.PrepareUpload | docs/online-doctor/test-online-doctor-vital-sensing.ts:181-256 | A missing file fails; a clip within 10 MiB is used as it is; an accepted result is within 10 MiB and is re-encoded exactly when the original was over. |
| SensingScript.UserIdOf | docs/online-doctor/test-online-doctor-vital-sensing.ts:277-279 | The text of the first id that is neither `undefined` nor `null`, else empty. |
| SensingScript.LoginOutcome | docs/online-doctor/test-online-doctor-vital-sensing.ts:273-293 | An accepted login has a non-empty token and a user id from an actual id; the token is the text of `data.access_token`. |
| SensingScript.TokenText | docs/online-doctor/test-online-doctor-vital-sensing.ts:275 | The token is `data.access_token` as text, and the empty text when it is null or missing. |
| SensingScript.LoginChecks | docs/online-doctor/test-online-doctor-vital-sensing.ts:275-293 | Accepted exactly when the token text and the user id are non-empty, and then carries that token, that user id and the raw body; a missing token is reported first, with the body in the message. |
| SensingScript.UserIdOfAsWritten | docs/online-doctor/test-online-doctor-vital-sensing.ts:277-279 | See Findings. |
| SensingScript.NullUserIdCounterexample | docs/online-doctor/test-online-doctor-vital-sensing.ts:277-287 | See Findings. |
| SensingScript.Login | docs/online-doctor/test-online-doctor-vital-sensing.ts:258-294 | One request with the two-field form; an accepted login passed the step's success test, and a reply that passes it yields exactly the outcome of its body. |
| SensingScript.HistoryUserId | docs/online-doctor/test-online-doctor-vital-sensing.ts:444-445 | The override or the login user, kept when it contains "_", else with "_0" appended; the result always contains "_". |
| SensingScript.HistoryUserIdIdempotent | docs/online-doctor/test-online-doctor-vital-sensing.ts:444-445 | Deriving the history id from a derived id changes nothing. |
| SensingScript.SignalVital | docs/online-doctor/test-online-doctor-vital-sensing.ts:324-327 | The readings are never null; without `data` they are `{}`. |
| SensingScript.SignalVitalAgreesWithLibrary | docs/online-doctor/test-online-doctor-vital-sensing.ts:324-327 | The script and the library find the same readings unless `data` is present but falsy. |
| SensingScript.SignalVitalDiffersOnFalsyData | docs/online-doctor/test-online-doctor-vital-sensing.ts:325 | With `data: 0` the script reads 0 where the library reads `{}`. |
| SensingScript.SignalForm | docs/online-doctor/test-online-doctor-vital-sensing.ts:303-305 | The clip under its file name, plus the patient id exactly when a non-empty one is given. |
| SensingScript.GetSignal | docs/online-doctor/test-online-doctor-vital-sensing.ts:296-333 | A missing file sends nothing and fails with "Video file not found: " and the full path given; otherwise one upload of the signal form with the bearer token; a reply that passes the step's test yields its unwrapped readings. |
| SensingScript.FirstBlank | docs/online-doctor/test-online-doctor-vital-sensing.ts:337-341 | The first key whose reading is `undefined`, `null` or empty, every earlier one present, or -1 when all are present. |
| SensingScript.SaveForm | docs/online-doctor/test-online-doctor-vital-sensing.ts:343-350 | The five readings as text under their form names, then the user id, then the reception id exactly when one is given non-empty. |
| SensingScript.SaveData | docs/online-doctor/test-online-doctor-vital-sensing.ts:335-372 | Nothing is sent exactly when a required reading is missing, and the refusal names the first such key. Otherwise one request with the save form and the bearer token; an accepted reply yields its body, and a rejected one the step's failure message. |

## Left out

- Browser media and scheduling are left out because they are I/O: `getUserMedia`, `MediaRecorder`, animation frames and interval timing. They appear only as events of the controller. Opening the camera is one atomic event.
- The face detector is an oracle returning a box or nothing.
- FFmpeg loading and execution are left out; conversion is an ok/failed outcome.
- `Math.random` is left out; it becomes five draws in [0, 1) given to the upload step.
- The 1.5-second delay before the fallback result is left out.
- Floating point is replaced by exact reals. Rounding in the geometry and in `toFixed(2)` is therefore exact, apart from the half-hundredth bound that is proved.
- Capture.SendOutcome: `sendToApi` is taken never to reject, since it catches every error itself.
- A stale `onstop` of an aborted recorder that arrives after the take has already resumed is not analysed. It needs a task ordering the browser practically never produces.
- Json.ToNumber: hexadecimal, binary and octal literals and `Infinity` read as NaN, where `Number` accepts them; decimal literals with exponents are read.
- JsNumber.StringToNumber: `0x`, `0b` and `0o` literals and `Infinity` (signed or not) read as NaN, where `Number` accepts them.
- JsNumber.ParseFloat: `Infinity` (signed or not) reads as NaN, where `parseFloat` gives an infinite value.
- Json.ToStr: numbers render as their exact decimal expansion, up to a digit bound; exponent forms are not produced.
- `JSON.parse` is given with each reply rather than computed from its text.
- `JSON.stringify` and Base64 encoding and decoding are function parameters.
- The texts of the engine's `TypeError` follow V8.
- The route's `file` form entry is taken to be a file or absent. A text entry under that name is not modelled.
- The script's `parseArgs`, `printHelp`, `printVitalReport` and `main` are not modelled, being argument plumbing and console output. The same goes for the URL and GET shape of `getHistory`; only its user-id derivation is modelled.
- The report page's language switch, translation tables, theme, `localStorage` and scrolling are not modelled; the error message is the Japanese text.
- The 10-second abort of the lookup is one "timed out" outcome.
- The SQL engine is a sequence of rows in rowid order.
  - The id and creation time the database assigns are parameters.
  - Ties in `created_at` are listed in the sort's order, where SQL leaves their order open.
  - Only a table filled by `saveReport` alone is considered, so the row read back after an insert is the new one.
- `app/api/reports/route.ts`, the by-code lookup, short-code generation and deployment configuration are not part of this model.

## Findings

| source | as written | input that shows it | evidently intended | confidence | as-written member | corrected member |
|---|---|---|---|---|---|---|
| app/page.tsx:147-194 | The detection loop holds the `detectFace` of the moment the camera started, and with it the model-loaded flag of that moment. | Open the camera while the face model is still loading, let it load, then show a well-placed face: every detection still reports no face and the capture button never enables. | Each detection reads the current flag. | not executed | CaptureAsWritten.StaleModelFlagCounterexample | Capture.OnDetected |
| app/page.tsx:124-128 | `stopCamera` cancels only an animation frame still pending. A detection already awaiting the detector schedules another frame when it settles. | A take whose countdown ends while a detection is in flight: its stop event stops the camera, then the detection schedules a new frame on the analysing screen with no camera. | Stopping the camera ends the loop wherever it stands. | not executed | CaptureAsWritten.LoopOutlivesCameraCounterexample | Capture.StopCamera |
| docs/online-doctor/test-online-doctor-vital-sensing.ts:277-287 | The user id is turned into text whenever it is not `undefined`, so a `null` id becomes the text "null" and passes the missing-id check. | A login body `{"data": {"access_token": "t", "user": {"id": null}}}` is accepted as user "null", and the history is then asked for as "null_0". | A login without a user id is refused. | not executed | SensingScript.NullUserIdCounterexample | SensingScript.LoginOutcome |
