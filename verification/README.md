# Railway track defect detection: a Dafny model of its decision rules

The system has three parts:

- **A vision agent** samples camera frames and asks an image model about each sample. It forwards confident "Defective" answers to the backend.
- **A FastAPI backend** has each defect analysed by a language model, normalises the severity, stores the record, and e-mails an alert for Critical defects.
- **A React frontend** polls the defect list and scopes it to a station master's station. It lets users search and filter reports and resolve or reopen them. It also manages stations, starts and stops the drone agent, and analyses camera frames or uploaded images.

None of these parts holds one large algorithm. Each holds many small, total decision rules over strings, options, sequences and small state records. This project states those rules in Dafny, one module per source file or component, and proves what each promises.

| module | models |
|---|---|
| `Intake` | `backend/main.py`: `normalize_severity`, coercion of the analysis fields, the stored row and the Critical-only alert |
| `Location` | `backend/location_utils.py`: `find_nearest_station`, with the distance as a parameter |
| `Groq` | `backend/groq_service.py`: client caching, `{...}` extraction, severity capitalisation, the two fallback analyses |
| `EmailAlert` | `backend/email_service.py`: recipient fallback, skip conditions, subject, attachment, swallowed send failure |
| `Feed` | `frontend/src/App.jsx`: the role filter and the change-only list update |
| `Auth` | `AuthContext.jsx`, `ProtectedRoute.jsx` and `Navbar.jsx`: the auth state machine, the route guard and the nav bar |
| `Reports` | `frontend/src/pages/Reports.jsx`: search and filters, the resolve/reopen handlers, the status label and the action button |
| `Details` | the detail panel that `Reports.jsx` and `Dashboard.jsx` share: image fallback, placeholder texts, numbered resolution steps |
| `Dashboard`, `DefectList`, `MapView` | the selection shared by the list, the map and the panel; cards; map centre, icons and markers |
| `Stations` | `frontend/src/pages/Stations.jsx`: form state, create and partial-update payloads, delete guard, loading flag |
| `DroneControl`, `DronePage` | the admin drone panel; the camera/upload analysis page's modes, flags and labels |
| `Vision` | `vision/vision_agent.py`: the forwarding gate, frame sampling and the one-shot location set-up |

Shared helpers:

- `Wrappers` (`Option`, `Result`).
- `Text`:
  - Python `strip()` and JavaScript `trim()` are written out separately, because they remove different whitespace sets.
  - ASCII case mapping and `capitalize()`.
  - `split`/`join`.
- `Seqs`: an order-preserving filter.
- `PyValue`: Python values with truthiness and `str()`.
- `Records`: the defect and user records the frontend receives, plus JavaScript truthiness and `x || fallback`.

Inputs replace every outside effect:

- Each network request becomes an `Option` or `Result` outcome.
- `json.loads` becomes `parse`.
- `float()` and `parseFloat` become `toFloat` and `parseFloat`.
- `os.path.exists` becomes `pathExists`.
- `haversine_distance` becomes `haversine`.
- `Number.toString` becomes `toString`.
- `random.uniform` becomes the drift arguments.
- `window.confirm` becomes a boolean.
- `localStorage` becomes a state field.

One timer tick or poll is one function call.

## Model

| member | source | states |
|---|---|---|
| Intake.LevelOfKey | backend/main.py:69-78 | the lists are tried in order: Critical exactly for critical/severe/very high/urgent, Low exactly for low/minor/minimal, and High for high/significant/medium-high, medium/moderate and any unknown key |
| Intake.NormalizeSeverity | backend/main.py:60-78 | a falsy value gives High; any other value is classified by its lower-cased, stripped `str()` |
| Intake.SeverityWords | backend/main.py:60-78 | Critical exactly for a truthy value whose key is a Critical word, Low exactly for a Low word, High for everything else, including falsy values |
| Intake.SeverityKeyIdempotent | backend/main.py:67 | the matched key is a fixed point: lower-casing and stripping it again changes nothing |
| Intake.NormalizeIgnoresCaseAndSpace | backend/main.py:67-78 | a string and its lower-cased, stripped form normalise to the same severity |
| Intake.PaddedKey | backend/main.py:67 | a word that neither starts nor ends with whitespace, padded with any whitespace, has its lower-cased self as key |
| Intake.PaddedWordLevel | backend/main.py:67-78 | whitespace padding and letter case around a word do not change its severity; so " SEVERE " and any padded Critical word normalise to Critical |
| Intake.NormalizeIdempotent | backend/main.py:60-78 | normalising the name of a normalised severity gives it back |
| Intake.CoerceField | backend/main.py:115-117 | a missing key gives the fixed default; a non-list value gives `str(value)`; a list succeeds exactly when all its elements are strings, otherwise the join raises |
| Intake.JoinedListSplitsBack | backend/main.py:115-117 | a corollary of `Text.SplitJoin` at the "; " joiner: splitting a joined list on "; " and joining again gives the stored text back |
| Intake.AlertDataOf | backend/main.py:128-140 | the alert data carries the stored severity and image path, and the station, with `None` when there is none |
| Intake.AnalyzeEndpoint | backend/main.py:94-143 | stores the normalised severity of the analysis (`{}` when the call failed) and the request's fields; fails exactly when a field coercion raises; schedules an alert exactly when the stored severity is "Critical" |
| Intake.FailedAnalysisStoresDefaults | backend/main.py:97-117 | a failed analysis call stores High, the three default texts, and no alert |
| Intake.AlertIffCriticalWord | backend/main.py:101-141 | an alert is scheduled exactly when the analysis' severity is a truthy value whose key is a Critical word |
| Location.FindNearestStation | backend/location_utils.py:23-48 | `None` exactly for an empty list; otherwise a station no farther than any other, and the earliest of equally near ones (strict `<`) |
| Groq.GetClient | backend/groq_service.py:8-16 | a cached client is returned as is; without a key nothing is created; otherwise a client is created and cached |
| Groq.ClientCached | backend/groq_service.py:9-16 | once created, the client is returned again whatever the key later is |
| Groq.ExtractObject | backend/groq_service.py:71-75 | without a '{' before a '}' the text is unchanged; otherwise the result is the infix from the first '{' to the last '}' inclusive |
| Groq.ExtractIdempotent | backend/groq_service.py:71-75 | extracting from an extracted object changes nothing |
| Groq.CapitalizeSeverity | backend/groq_service.py:79-81 | a present string severity is capitalised and every other entry is kept; a non-string severity raises; a missing one leaves the dict alone |
| Groq.AnalyzeDefect | backend/groq_service.py:18-93 | no client gives the missing-key fallback; a failed call, a failed parse or a failed capitalisation gives the failure fallback; otherwise the parsed, capitalised reply |
| Groq.NoKeyNoCall | backend/groq_service.py:22-30 | without a key or a cached client the reply is never consulted, and the severity is "High" |
| Groq.SeverityCapitalized | backend/groq_service.py:79-93 | any severity in the returned analysis is a string that capitalising leaves unchanged |
| EmailAlert.Recipient | backend/email_service.py:20-22 | the supplied recipient when truthy, else `ALERT_RECIPIENT` |
| EmailAlert.Subject | backend/email_service.py:35-37 | the fixed prefix followed by the station name when truthy, else the `nearest_station` entry as `str()` renders it, and "Unknown Location" only when that key is absent |
| EmailAlert.StoredNoneReadsNone | backend/email_service.py:35-37 | one worked example, not a general property: a stored `None` station reads "None" in the subject, not "Unknown Location", and an empty station name falls through to it |
| EmailAlert.SendAlert | backend/email_service.py:8-154 | skipped exactly when a credential is missing (checked first), then exactly when no recipient remains; otherwise sent, or the send failure is swallowed; the image is attached exactly when the path is set, exists and reads |
| EmailAlert.CredentialsCheckedFirst | backend/email_service.py:24-30 | without a sender user the outcome is the credentials skip, whatever the recipient |
| EmailAlert.SuppliedRecipientWins | backend/email_service.py:20-30 | with credentials, a supplied recipient always receives the mail |
| Feed.RoleFilter | frontend/src/App.jsx:29-35 | a StationMaster with a truthy station id gets exactly the defects assigned to that station, in response order, with their multiplicities; everyone else gets the response unchanged |
| Feed.ScopedSeesExactlyOwn | frontend/src/App.jsx:31-35 | a listed defect is kept exactly when it is assigned to the user's station |
| Feed.PollAsWritten | frontend/src/App.jsx:20-48 | without a token no request is made; a failed request changes nothing; the list is replaced exactly when the filtered response differs from the list captured when the effect was set up |
| Feed.StaleListAsWritten | frontend/src/App.jsx:37-48 | the captured-list comparison leaves a defect on screen after the server stops returning it, and republishes an unchanged list |
| Feed.PollIntended | frontend/src/App.jsx:23-42 | comparing with the list on screen: a successful poll shows the filtered response, and publishes exactly when it differs |
| Feed.PollsIntendedShowLatest | frontend/src/App.jsx:37-46 | after any run of polls the list is the filtered latest successful response |
| Feed.RepeatPublishesOnce | frontend/src/App.jsx:37-39 | the same response twice publishes at most once |
| Auth.Mount | frontend/src/contexts/AuthContext.jsx:9-11 | the token comes from storage, nobody is signed in, and the provider is loading |
| Auth.Logout | frontend/src/contexts/AuthContext.jsx:56-60 | storage, token and user are all cleared |
| Auth.FetchUserData | frontend/src/contexts/AuthContext.jsx:22-34 | success sets the user; failure logs out; loading ends either way |
| Auth.TokenEffect | frontend/src/contexts/AuthContext.jsx:14-20 | with a token the user is fetched, and authentication follows the fetch; without one loading just ends |
| Auth.NoTokenNoFetch | frontend/src/contexts/AuthContext.jsx:15-19 | without a token the `/auth/me` outcome is irrelevant |
| Auth.Login | frontend/src/contexts/AuthContext.jsx:36-54 | a rejected login changes nothing; otherwise the token is stored first, so a failed user fetch keeps the token and the old user until the `[token]` effect runs |
| Auth.LoginHalfway | frontend/src/contexts/AuthContext.jsx:44-51 | right after a failed user fetch in login, a token is stored and nobody is authenticated; this lasts only until the `[token]` effect runs |
| Auth.LoginSettles | frontend/src/contexts/AuthContext.jsx:14-54 | a new non-empty token re-runs the `[token]` effect: afterwards the user is signed in exactly when the effect's own user request succeeds, and otherwise token and storage are cleared |
| Auth.AuthenticatedIgnoresToken | frontend/src/contexts/AuthContext.jsx:67 | being authenticated means having a user, independent of the token |
| Auth.UseAuth | frontend/src/contexts/AuthContext.jsx:74-80 | outside a provider it fails with the fixed message |
| Auth.Protect | frontend/src/components/ProtectedRoute.jsx:5-27 | spinner while loading; "/login" when not authenticated; "/" for a non-admin on an admin route; the children otherwise |
| Auth.ProtectDefault | frontend/src/components/ProtectedRoute.jsx:5-26 | the default guard never redirects to "/" and admits exactly the authenticated |
| Auth.AdminRouteNarrowsPlain | frontend/src/components/ProtectedRoute.jsx:17-26 | an admin route admits exactly the admins among those a plain route admits |
| Auth.Nav | frontend/src/components/Navbar.jsx:16-63 | nothing on "/login"; links and user box only when authenticated, Dashboard first and Reports last; Stations and Drone exactly for admins |
| Auth.NavLinksPassGuard | frontend/src/App.jsx:55-86 | every offered link leads to a route whose guard admits the user |
| Auth.HandleLogout | frontend/src/components/Navbar.jsx:11-14 | logs out and goes to "/login", where the bar is hidden |
| Reports.FilteredDefects | frontend/src/pages/Reports.jsx:17-26 | an order-preserving subsequence holding exactly the matching defects, each with its multiplicity |
| Reports.EmptySearchMatchesAll | frontend/src/pages/Reports.jsx:18-20 | the empty term matches every defect |
| Reports.InitialFiltersKeepAll | frontend/src/pages/Reports.jsx:9-26 | with the initial controls the list is unchanged |
| Reports.SearchIgnoresTermCase | frontend/src/pages/Reports.jsx:18-20 | lower-casing the term does not change the match |
| Reports.MissingStationSearchesType | frontend/src/pages/Reports.jsx:18-20 | without a station only the type is searched |
| Reports.StatusLabel | frontend/src/pages/Reports.jsx:230 | the status when truthy, else "Open" |
| Reports.ActionFor | frontend/src/pages/Reports.jsx:401-455 | Mark Resolved exactly for status "Open"; otherwise Reopen for an admin and nothing for anyone else |
| Reports.MissingStatusAsWritten | frontend/src/pages/Reports.jsx:401-428 | a defect without a status is labelled "Open" (line 230), is hidden by the "Open" filter (line 23), and gets no Mark Resolved button |
| Reports.ActionForLabel | frontend/src/pages/Reports.jsx:401-455 | deciding on the status as labelled: Mark Resolved exactly when the label is "Open", and as written whenever a status is set |
| Reports.LabelAndActionAgree | frontend/src/pages/Reports.jsx:401-455 | with the corrected rule the button agrees with the label, and a missing status offers Mark Resolved |
| Reports.Handle | frontend/src/pages/Reports.jsx:28-69 | no selection does nothing; otherwise the PATCH for the selected id is sent, success sets the status locally and reloads, failure alerts the detail or the fixed text; the handler's own busy flag ends either way and the other handler's flag is kept |
| Reports.HandlerClearsOwnFlag | frontend/src/pages/Reports.jsx:46-67 | a reopen finishing while a resolve is pending leaves the resolve flag set, and vice versa |
| Reports.DetailPanel | frontend/src/pages/Reports.jsx:245-396 | the panel opens exactly for a selection and shows its details with the 400x250 placeholder |
| Reports.ResolveThenReopen | frontend/src/pages/Reports.jsx:28-69 | resolving then reopening brings the defect back to "Open", with nothing else of it changed |
| Details.ImageSrc | frontend/src/pages/Dashboard.jsx:42 | a URL starting with "http" is shown; anything else shows the placeholder |
| Details.NumberFrom | frontend/src/pages/Reports.jsx:378-392 | the shown steps are non-blank pieces, each numbered by its original position plus one, in increasing order |
| Details.NumberFromComplete | frontend/src/pages/Reports.jsx:378-392 | no non-blank piece is dropped |
| Details.BlankIff | frontend/src/pages/Reports.jsx:379 | a piece is hidden exactly when `trim()` empties it |
| Details.ResolutionSteps | frontend/src/pages/Reports.jsx:377-396 | falsy text shows the fetching message; otherwise the numbered pieces of the text split on ". " |
| Details.StepsCoverText | frontend/src/pages/Reports.jsx:377-392 | the pieces join back to the text, and the shown steps are exactly its non-blank pieces under their numbers |
| Details.StepNumbersCanSkip | frontend/src/pages/Reports.jsx:378-390 | one worked example, not a general property: a blank piece leaves a gap: "Inspect. . Replace" shows steps 1 and 3 |
| Details.PanelOf | frontend/src/pages/Dashboard.jsx:29-73 | the critical marker exactly for "Critical", the URL when it starts with "http" and the placeholder otherwise, the root cause and action with their fallback texts, and the steps |
| Dashboard.SelectedId | frontend/src/pages/Dashboard.jsx:16 | the selected defect's id, undefined without a selection |
| Dashboard.Render | frontend/src/pages/Dashboard.jsx:6-81 | the list, map and panel all read the one selection; the panel shows exactly when something is selected |
| Dashboard.SelectionIsShared | frontend/src/pages/Dashboard.jsx:13-36 | selecting a defect marks exactly its card, centres the map on it and opens its panel; closing removes all three |
| Dashboard.LocalImageShowsPlaceholder | frontend/src/pages/Dashboard.jsx:42 | a stored file path shows the 300x200 placeholder |
| MapView.Center | frontend/src/components/MapComponent.jsx:31-34 | the selected defect's position, else the first defect's, else New Delhi |
| MapView.Recenter | frontend/src/components/MapComponent.jsx:49 | the map recentres exactly when a defect is selected, onto it |
| MapView.IconFor | frontend/src/components/MapComponent.jsx:52-54 | red exactly for "Critical", gold exactly for "High", blue otherwise |
| MapView.Markers | frontend/src/components/MapComponent.jsx:51-72 | one marker per defect in order, keyed by id, coordinates with `|| 0`, icon by severity |
| MapView.MarkerPlacement | frontend/src/components/MapComponent.jsx:59 | a corollary of `Markers` for one marker: a known coordinate is used as is, a missing one becomes 0 |
| DefectList.List | frontend/src/components/DefectList.jsx:7-23 | the placeholder exactly for an empty list; otherwise one card per defect in order, selected exactly when its id is the selected id, critical exactly for "Critical" |
| DefectList.OneSelectedCard | frontend/src/components/DefectList.jsx:13 | with distinct ids exactly one card is selected, and none without a selection |
| Stations.FetchStations | frontend/src/pages/Stations.jsx:27-39 | the list or the error text; loading ends either way |
| Stations.Input | frontend/src/pages/Stations.jsx:46-49 | one field takes the typed value, the others are kept |
| Stations.ResetForm | frontend/src/pages/Stations.jsx:52-63 | all five fields empty, the form closed, editing and error cleared; list and success text kept |
| Stations.AddNew | frontend/src/pages/Stations.jsx:193-205 | an empty, visible add form that submits to create |
| Stations.StartEdit | frontend/src/pages/Stations.jsx:155-165 | the station's five values in the form, coordinates as strings; editing set, add form hidden; submits to update |
| Stations.SubmitRoute | frontend/src/pages/Stations.jsx:295 | update exactly while editing, for the edited id |
| Stations.CreatePayload | frontend/src/pages/Stations.jsx:83-89 | every field is sent, coordinates parsed |
| Stations.UpdatePayload | frontend/src/pages/Stations.jsx:112-117 | a field is sent exactly when its input is not empty, coordinates parsed |
| Stations.UpdateIsPartialCreate | frontend/src/pages/Stations.jsx:83-117 | an update carries a part of the create payload, and all of it when every input is filled |
| Stations.AfterSubmit | frontend/src/pages/Stations.jsx:66-130 | success shows the create or update text, resets the form and reloads; failure shows the detail or the fixed text and keeps the form |
| Stations.DeleteRequest | frontend/src/pages/Stations.jsx:133-136 | a request exactly when confirmed, for that station |
| Stations.AfterDelete | frontend/src/pages/Stations.jsx:138-151 | the success text and a reload, or the detail or the fixed failure text |
| Stations.EditThenSaveCloses | frontend/src/pages/Stations.jsx:106-130 | a successful edit closes the form and the next submit creates |
| DroneControl.FetchStatus | frontend/src/components/DroneControl.jsx:21-30 | a reply replaces the status, a failure leaves it |
| DroneControl.CommandStart | frontend/src/components/DroneControl.jsx:32-34 | a command starts loading and clears the message |
| DroneControl.AfterCommand | frontend/src/components/DroneControl.jsx:32-68 | the reply's message, or the detail or the fixed text; loading ends either way |
| DroneControl.AfterDelay | frontend/src/components/DroneControl.jsx:40-43 | two seconds later the status is polled and the message cleared |
| DroneControl.Render | frontend/src/components/DroneControl.jsx:70-222 | nothing for non-admins; Start exactly when not running; disabled exactly while loading; a message styled success exactly when it contains "success" |
| DroneControl.InitialOffersStart | frontend/src/components/DroneControl.jsx:9-11 | an admin first sees an enabled Start and no message |
| DroneControl.MessageStyleIsCaseSensitive | frontend/src/components/DroneControl.jsx:153 | one worked example, not a general property: "successfully" is a success, "Success" is not |
| DroneControl.PendingCommandDisablesButton | frontend/src/components/DroneControl.jsx:32-34 | while a command is pending the button is disabled and no message shows |
| DronePage.QueryParams | frontend/src/pages/DronePage.jsx:121-125 | coordinates are sent exactly in manual location mode |
| DronePage.CoordinateInput | frontend/src/pages/DronePage.jsx:327 | an input that does not parse becomes 0 |
| DronePage.StartCamera | frontend/src/pages/DronePage.jsx:40-52 | with permission the camera mode opens; otherwise only the error is set |
| DronePage.StopCamera | frontend/src/pages/DronePage.jsx:87-95 | no stream, no mode, not capturing, auto-analysis off; result and error kept |
| DronePage.Reset | frontend/src/pages/DronePage.jsx:204-211 | the camera stopped and image, preview, result and error cleared; the location choice kept |
| DronePage.ResetIdempotent | frontend/src/pages/DronePage.jsx:204-211 | resetting twice is resetting once |
| DronePage.CaptureStart | frontend/src/pages/DronePage.jsx:98-105 | nothing without the video and canvas; otherwise capturing and processing, and the result cleared only in manual mode |
| DronePage.Finish | frontend/src/pages/DronePage.jsx:139-149 | the reply, or the detail or the fixed failure text; processing ends, capturing stays until the cooldown |
| DronePage.CaptureCooldown | frontend/src/pages/DronePage.jsx:148 | the cooldown ends capturing and nothing else |
| DronePage.AutoTick | frontend/src/pages/DronePage.jsx:66-72 | a tick captures only in camera mode with auto-analysis on and neither processing nor capturing |
| DronePage.ToggleAutoAnalyze | frontend/src/pages/DronePage.jsx:568 | the button flips the flag and nothing else |
| DronePage.StoppedCameraNeverTicks | frontend/src/pages/DronePage.jsx:66-95 | after the camera stops no tick captures, even with auto-analysis switched back on |
| DronePage.AutoTickKeepsResult | frontend/src/pages/DronePage.jsx:104-105 | an automatic capture never clears the shown result |
| DronePage.SelectImage | frontend/src/pages/DronePage.jsx:154-163 | a chosen file opens the upload mode with its preview and clears error and result; no file changes nothing |
| DronePage.UploadStart | frontend/src/pages/DronePage.jsx:166-171 | nothing without a selected image; otherwise processing with error and result cleared |
| DronePage.UploadCycle | frontend/src/pages/DronePage.jsx:154-200 | choosing a file and analysing it ends in the upload mode, with the file and preview kept and processing over, showing the reply with no error, or the detail or fixed failure text with no result |
| DronePage.ResultLabel | frontend/src/pages/DronePage.jsx:692 | "defect_detected" and "no_defect" get their labels, every other status "Low Confidence" |
| DronePage.CaptureLabel | frontend/src/pages/DronePage.jsx:564 | the idle label shows exactly when the button is enabled |
| DronePage.CaptureCycle | frontend/src/pages/DronePage.jsx:98-149 | the button is disabled from capture until the cooldown, then enabled with the reply shown |
| Vision.Confidence | vision/vision_agent.py:149-150 | a missing confidence is 0, a present one is converted with `float()` |
| Vision.ForwardConfidence | vision/vision_agent.py:149-154 | forwarded exactly when the prediction is "Defective" and the confidence converts and is strictly above 70.0 |
| Vision.MissingFieldsNeverForward | vision/vision_agent.py:149-154 | a missing prediction or confidence is never forwarded |
| Vision.ThresholdIsStrict | vision/vision_agent.py:154 | a confidence of exactly 70.0 is not forwarded |
| Vision.Payload | vision/vision_agent.py:171-178 | a payload exactly for forwarded frames: type "Track Defect", the confidence, the saved image's path, the position and "Detected Location", no chainage |
| Vision.SampleFrames | vision/vision_agent.py:220-232 | of n frames, exactly the counts divisible by 30 are submitted: 30, 60, … |
| Vision.ManualPosition | vision/vision_agent.py:91-106 | both stripped inputs when both are non-empty and parse, otherwise New Delhi |
| Vision.InitializeLocation | vision/vision_agent.py:60-108 | nothing once initialised; otherwise the geolocated position when there is one and the answer is "y", else the manual position, and the flag set |
| Vision.InitializeOnce | vision/vision_agent.py:64-65 | a second initialisation changes nothing |
| Vision.BlankInputGivesDefault | vision/vision_agent.py:94-106 | blank input gives the default position |
| Vision.DroneModeLocation | vision/vision_agent.py:332-335 | drone mode sets the default position and the flag, so later initialisation asks nothing |
| Vision.LocationMetadata | vision/vision_agent.py:111-121 | the position is initialised if needed and moved by at most 0.0001 in each coordinate |
| Text.Strip | backend/groq_service.py:71 | the result is an infix of the text with only whitespace around it, and neither starts nor ends with whitespace |
| Text.StripPadded | backend/main.py:67 | stripping a word padded on both sides with whitespace returns exactly the word, when the word neither starts nor ends with whitespace |
| Text.StripIdempotent | backend/main.py:67 | stripping twice is stripping once |
| Text.StripEmptyIff | frontend/src/pages/Reports.jsx:379 | a string strips to "" exactly when it is all whitespace |
| Text.Capitalize | backend/groq_service.py:81 | first character upper-cased, the rest lower-cased |
| Text.CapitalizeIdempotent | backend/groq_service.py:81 | capitalising twice is capitalising once |
| Text.Split | frontend/src/pages/Reports.jsx:378 | at least one piece, the first being a prefix of the text |
| Text.SplitJoin | frontend/src/pages/Reports.jsx:378 | joining the pieces with the separator gives the text back |
| Text.SplitPiecesFree | frontend/src/pages/Reports.jsx:378 | no piece contains the separator |
| Seqs.Filter | frontend/src/pages/Reports.jsx:17-26 | kept elements pass the test and come from the input; each element keeps its multiplicity exactly when it passes |
| Seqs.FilterIsSubsequence | frontend/src/pages/Reports.jsx:17-26 | filtering keeps the original order |
| PyValue.AllStrings | backend/main.py:115-117 | succeeds exactly when every element is a string, and returns them in order |

## Left out

- Auth.LoginSettles: the effect's user request and the one inside `login` run concurrently. The model lets the effect's request finish last; the other order, where `login`'s `setUser` lands after the effect's `logout`, is not modelled.
- Network, database and service calls (axios, requests, the Groq client, SMTP, SQLAlchemy sessions, `get_defects`): their results are inputs. The backend's `GET /defects` paging and ordering are not modelled.
- Timers and concurrency (`setInterval`, `setTimeout`, `ThreadPoolExecutor`, `BackgroundTasks`, `asyncio.to_thread`): one tick or poll is one call. The 3-second success-text timers of the station page are not modelled.
- `haversine_distance`: the trigonometry is a parameter, so the nearest-station properties hold for every distance function. A NaN distance is not a `real`.
- `random.uniform` and `round(..., 6)` in `get_location_metadata`: the drift is an argument bounded by 0.0001, and rounding is not modelled.
- Location.FindNearestStation: the "element of the list" promise holds for every distance. With a NaN distance Python would return `None` for a non-empty list, and that case is outside `real`.
- Feed.PollAsWritten: the change check is value equality of the filtered list. `JSON.stringify` also depends on key order, which the records here do not have.
- Records.Defect does not carry `chainage` or `timestamp`, which the defect response also returns and `JSON.stringify` compares. Neither changes after a defect is created, so the change check is unaffected; no component modelled here shows them.
- Vision.Confidence: `toFloat` yields a real or nothing. Python's `float()` also accepts "inf" and "nan": an infinite confidence would pass `> 70.0` and be forwarded, and a NaN one would not. Neither value is a `real`, so these cases are not modelled.
- The HTML and plain-text mail bodies, JSX markup and styling, and `toLocaleString` date formatting.
- `image_upload_mode` and the interactive menu of the vision agent (console plumbing), and the geocoder: its answer is the `actual` argument.
- Camera, canvas, blobs and object URLs on the drone page: a file is its name, and `refsReady`/`granted` stand for the element refs and the camera permission.
- `vision/tempCodeRunnerFile.py` is not part of this model: it is a stale copy of the agent.
- `frontend/src/pages/Login.jsx` is not part of this model: it is form plumbing around `login`.
- Text.Lower: case mapping covers ASCII letters only. Python's and JavaScript's full Unicode case mappings are not modelled.
- Text.Capitalize: the same ASCII-only limitation as `Lower`.
- PyValue.Repr: `str()` of a non-string value is abstract for numbers, booleans and dicts, and string escaping inside lists is simplified.
- Groq.AnalyzeDefect: a `json.loads` result that is not an object is treated as a parse failure. As written, such a result would reach `main.py`, whose `.get` would raise.
- Details.PanelOf: the Dashboard shows its steps unnumbered, while Reports numbers them; both are modelled as the numbered list.
- The `onError` image fallbacks and the Critical border flash on the drone page's canvas.

## Findings

| source | as written | input that shows it | evidently intended | confidence | as-written member | corrected member |
|---|---|---|---|---|---|---|
| frontend/src/App.jsx:37-48 | the poll compares the filtered response with `defects` captured when the effect was set up, because `defects` is not a dependency | start from `[]`; the first poll returns one defect, the second returns none: the second list equals the captured `[]`, so the removed defect stays on screen | compare with the list currently shown | high, not executed | Feed.StaleListAsWritten | Feed.PollsIntendedShowLatest |
| frontend/src/pages/Reports.jsx:401-428 | the button tests `status === 'Open'` while the label shows `status \|\| 'Open'` and the filter tests `status === filter` | a defect with no status (this backend's response model has none) is labelled "Open" but offers no Mark as Resolved, an admin is offered Reopen, and the "Open" filter hides it | decide the button on the status as labelled | medium, not executed | Reports.MissingStatusAsWritten | Reports.LabelAndActionAgree |
