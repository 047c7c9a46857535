# fastapi-yolo-detection, modelled in Dafny

This project models the core of a FastAPI service that runs YOLO object
detection on uploaded pictures and videos, together with the Vue front end
that drives it. Its parts:

- **Detector** (`detector.dfy`) is the detector object. It holds a
  configuration, a model path, the device, the loaded network, the model name
  and the last picture results. It loads and switches models, detects objects
  in a batch of pictures and writes `detected_i.jpg` for each, and annotates a
  video frame by frame. Each object class gets one random colour that it keeps
  for the whole video.
- **YoloRoutes** (`yolo_routes.dfy`) covers the `/yolo` endpoints. They save
  uploads, call the shared detector, and turn exceptions into HTTP errors.
- **Records** and **Store** (`records.dfy`, `store.dfy`) model the
  `users` and `detection_history` tables and the schemas that go with them.
  They also cover registration, self-deletion with its cascade, and recording
  a detection. Each of these is a transition function, and methods of a
  `Database` class are proved against it.
- **Stats** (`stats.dfy`) models per-user statistics and the history query.
  The query returns the newest rows first, filtered by type and limited in
  number.
- **Auth** (`auth.dfy`) models password login, the access token's claims,
  the `Authorization` cookie, and resolving the current user from the token.
- **YoloStore** (`yolo_store.dfy`) is the front end's Vuex module: its
  state, its mutations, and the actions that commit them.
- **PyText** (`pytext.dfy`) holds the Python string and path operations the
  code relies on: `str(int)`, `os.path.join`, `os.path.basename`,
  `Path.stem`, `str.partition` and `str.lower`.

Several foreign pieces become inputs to the model:
- the file system is the set of existing paths (`Disk`);
- model inference is a function parameter, per batch for pictures and a
  per-frame list of detections for a video (`Capture`);
- the random colour generator is an oracle `draw`;
- bcrypt and the JWT codec are function parameters;
- the current time is an integer argument.

## Model

| member | source | states |
|---|---|---|
| Detector.EffectiveThreshold | services/backend/src/yolo/detector.py:117 | a missing threshold and a threshold of 0.0 both fall back to the configured default; any other value is kept |
| Detector.EffectiveDir | services/backend/src/yolo/detector.py:120 | a missing or empty output directory falls back to the configured one |
| Detector.Load | services/backend/src/yolo/detector.py:73-94 | loading succeeds exactly when the file exists and is readable; a failure changes no field; a missing file raises "Model file not found at {path}"; on success the network and the name (the path's stem) belong to the path |
| Detector.Switch | services/backend/src/yolo/detector.py:276-288 | the path tried is models_dir glued to the name; a missing file changes nothing; a readable file gives a consistent state; an unreadable file leaves the new path beside the old network |
| Detector.SwitchAtomic | services/backend/src/yolo/detector.py:276-288 | corrected switch: the path is joined; any failure leaves the state unchanged; success exactly when the joined file is readable; consistency is preserved |
| Detector.ConcatModelPath | services/backend/src/yolo/detector.py:282-283 | the tried path is the directory followed immediately by the name, with no separator |
| Detector.ConcatIsNotJoin | services/backend/src/yolo/detector.py:283 | gluing a relative name to a directory without a trailing "/" never yields the joined path of any relative name |
| Detector.ListedModelNotSwitchable | services/backend/src/yolo/detector.py:282-285 | with the default configuration, a listed `yolo11s.pt` is reported missing as `src/yolo/modelsyolo11s.pt` and the old model stays |
| Detector.ListedModelSwitchable | services/backend/src/yolo/detector.py:276-288 | corrected, every listed and readable model is switched to and named by its stem |
| Detector.SwitchCanBreakConsistency | services/backend/src/yolo/detector.py:287-288 | an existing file the library rejects leaves `model_path` pointing at it while the old network and name remain |
| Detector.PictureOutputNamesDistinct | services/backend/src/yolo/detector.py:296-300 | two result indices share an output file exactly when they are equal |
| Detector.PictureOutputName | services/backend/src/yolo/detector.py:300 | the file lies directly inside the output directory: the directory, a "/", then a name without "/"; `Detector.PictureOutputNamesDistinct` shows different results get different files |
| Detector.PictureWrites | services/backend/src/yolo/detector.py:296-300 | one write per result, result i to `{output_dir}/detected_{i}.jpg` |
| Detector.VideoOutputName | services/backend/src/yolo/detector.py:188-191 | the output name has no "/" when the model name has none |
| Detector.VideoOutputPath | services/backend/src/yolo/detector.py:188-191 | the path starts with the output directory and ends with `{stem}_{model}_detected.mp4`; `Detector.VideoOutputBasename` shows that name is its basename |
| Detector.VideoOutputBasename | services/backend/src/yolo/detector.py:188-191 | the file name of the output path is `{stem}_{model}_detected.mp4` |
| Detector.Passing | services/backend/src/yolo/detector.py:244 | a detection is kept exactly when it is an input detection with confidence at least the threshold; none is added |
| Detector.AnnotateBoxes | services/backend/src/yolo/detector.py:230-265 | the per-box drawing of one frame; its contract is `Detector.AnnotateBoxesSound`: the marks are the passing detections in order and each has its class's colour |
| Detector.AnnotateBoxesSound | services/backend/src/yolo/detector.py:230-265 | a frame's marks are its detections at or above the threshold, in order; the colour table only grows; every mark has its class's colour; a class gains a colour exactly when it passed |
| Detector.AnnotateFrames | services/backend/src/yolo/detector.py:208-268 | one written frame per frame read |
| Detector.AnnotateFramesSound | services/backend/src/yolo/detector.py:202-268 | frames are written in order with their index; each holds its passing detections; the shared colour table colours every mark of the video |
| Detector.AnnotateFrame | services/backend/src/yolo/detector.py:230-265 | the per-box loop computes exactly the frame's marks and the updated colour table |
| Detector.FrameLoop | services/backend/src/yolo/detector.py:202-228 | the read loop counts and annotates every frame until a read fails, starting from an empty colour table; when inference raises on a frame, that frame is counted, the loop stops with that error and the frames before it are the ones written |
| Detector.OpenWriter | services/backend/src/yolo/detector.py:195-199 | the `cv2.VideoWriter` constructor raises exactly when the frame size is not a (width, height) pair; given a pair, the writer is opened or not as the library decides |
| Detector.FrameSizeSetRejected | services/backend/src/yolo/detector.py:195 | as written, the frame size is a set: the constructor raises for every opened video, and the set is the same with width and height swapped |
| Detector.FrameSizePairAccepted | services/backend/src/yolo/detector.py:195 | corrected, the pair `(width, height)` keeps the two apart and the writer opens or not as the library decides |
| Detector.Detector.Init | services/backend/src/yolo/detector.py:58-71 | before loading: the configuration defaults when none is given, the model path is kept, the device is cuda exactly when a GPU is available, no model is loaded and results start empty |
| Detector.Detector.Create | services/backend/src/yolo/detector.py:45-62 | construction fails exactly when the initial model cannot be loaded, with the loader's error; otherwise the detector is consistent |
| Detector.Detector.LoadModel | services/backend/src/yolo/detector.py:73-94 | the object's fields change as `Load` says |
| Detector.Detector.ChangeModel | services/backend/src/yolo/detector.py:276-288 | the object's fields change as `Switch` says |
| Detector.Detector.LoadInto | services/backend/src/yolo/detector.py:287-288 | corrected load: a missing or rejected model leaves every field as it was; otherwise the path, network and name are assigned together |
| Detector.Detector.ChangeModelAtomic | services/backend/src/yolo/detector.py:276-288 | the object's fields change as `SwitchAtomic` says |
| Detector.Detector.DetectPicture | services/backend/src/yolo/detector.py:96-137 | inference sees the paths, the effective threshold and 640; an inference error leaves `results` unchanged; otherwise `results` are replaced and each is written to its numbered file |
| Detector.Detector.SavePictureResult | services/backend/src/yolo/detector.py:290-300 | the loop writes result i to `detected_{i}.jpg`, and all output paths are distinct |
| Detector.Detector.DetectVideo | services/backend/src/yolo/detector.py:139-274 | an unopenable video returns a ValueError object and opens no writer; a writer constructor that raises passes its error on; a writer that is not opened raises the "cannot create" RuntimeError; inference that raises on a frame passes its error on; otherwise every frame is annotated and written and the output path is returned; one class has one colour across all frames |
| YoloRoutes.UploadPaths | services/backend/src/routes/yolo.py:36-44 | upload i is saved at `os.path.join(save_dir, filename_i)` |
| YoloRoutes.SavedPaths | services/backend/src/routes/yolo.py:36-44 | after saving, the stored paths are the earlier ones plus the upload paths |
| YoloRoutes.SavedLastWins | services/backend/src/routes/yolo.py:36-44 | an upload's path holds its content unless a later upload is written to the same path |
| YoloRoutes.SavedKeepsOthers | services/backend/src/routes/yolo.py:36-44 | files at paths no upload goes to keep their content |
| YoloRoutes.SaveUploads | services/backend/src/routes/yolo.py:36-44 | the saving loop produces the stored files and the path list above |
| YoloRoutes.OutputImages | services/backend/src/routes/yolo.py:50 | the response lists exactly one name per uploaded file |
| YoloRoutes.OutputImagesNameWrites | services/backend/src/routes/yolo.py:50 | when inference gives one result per upload, the i-th listed name is the file name the detector wrote for result i |
| YoloRoutes.DetectPictureRoute | services/backend/src/routes/yolo.py:17-57 | uploads are saved, the detector runs on their paths with the form threshold, and the response lists one name per upload; an inference error becomes a 500 with its message and leaves the results |
| YoloRoutes.VideoResponse | services/backend/src/routes/yolo.py:87-96 | success reports the output path's file name; a detector exception becomes a 500 with its message; a returned ValueError becomes a 500 with the TypeError text |
| YoloRoutes.VideoResponseRaised | services/backend/src/routes/yolo.py:87-96 | corrected: a video that cannot be opened is a 500 carrying the detector's own message |
| YoloRoutes.UnopenableVideoHidesReason | services/backend/src/yolo/detector.py:172-175 | as written, an unopenable video is reported with the TypeError text, identically for every video |
| YoloRoutes.UnopenableVideoReportsReason | services/backend/src/yolo/detector.py:172-175 | corrected, the report is "无法打开视频文件:{path}", and it differs between videos |
| YoloRoutes.DetectVideoRoute | services/backend/src/routes/yolo.py:62-97 | the upload is saved and then: an unopenable video gives the TypeError 500; a writer constructor error, and an inference error, each give a 500 with that error's message; a writer that is not opened gives a 500 naming the output file; otherwise the response names the output video |
| YoloRoutes.OpenedVideoAnsweredWithWriterError | services/backend/src/routes/yolo.py:87-97 | as written, a video that opens is answered with a 500 carrying the writer's complaint about the frame size |
| YoloRoutes.VideoResponseNamesOutput | services/backend/src/routes/yolo.py:89-93 | a successful response names `{stem}_{model}_detected.mp4` |
| YoloRoutes.ChangeModelResponse | services/backend/src/routes/yolo.py:112-118 | success exactly when the switch raised nothing, with "Model changed successfully to {name}"; a missing file is a 404 "Model file not found"; any other error is a 500 with its message |
| YoloRoutes.ChangeModelRoute | services/backend/src/routes/yolo.py:101-118 | the shared detector switches as `Switch` says and the response follows its error |
| YoloRoutes.ListedModelIsAnswered404 | services/backend/src/routes/yolo.py:112-116 | choosing a listed model by its listed name is answered with a 404, from any detector state |
| YoloRoutes.PtFiles | services/backend/src/routes/yolo.py:136 | exactly the directory entries ending in ".pt" are listed |
| YoloRoutes.AvailableModels | services/backend/src/routes/yolo.py:130-142 | the models are the ".pt" entries in listing order; the current model is the last path component of the detector's model path: it has no "/", ends the path, and is preceded there by a "/" unless it is the whole path |
| YoloRoutes.PtFilesKeepsOrder | services/backend/src/routes/yolo.py:136 | filtering a listing split in two is filtering each part, so the listing's order is kept |
| YoloRoutes.CurrentModelAfterSwitch | services/backend/src/routes/yolo.py:139 | after a corrected switch to a plain file name, that name is reported as current |
| Records.UserText | services/backend/src/database/models.py:12-13 | the text is the username, ", ", the full name or "None", " on " and the rendered creation time |
| Records.DetectionHistoryWithDefaults | services/backend/src/schemas/detection.py:8-20 | omitted fields take their declared defaults: an object count of 0, no processing time, no file names |
| Records.StoredRecordReadsBack | services/backend/src/schemas/detection.py:30-39 | a stored request converts back to an output record carrying the submitted fields unchanged |
| Store.OutOf | services/backend/src/schemas/users.py:10-12 | the output keeps the id, username and full name, and has no password |
| Store.FindByUsername | services/backend/src/auth/user.py:43-51 | the lookup finds a row with that username exactly when one exists |
| Store.FindById | services/backend/src/crud/users.py:40-43 | the lookup finds a row with that id exactly when one exists |
| Store.EmptyTablesValid | services/backend/migrations/models/2_20251015125044_None.py:6-26 | freshly migrated tables satisfy every constraint |
| Store.UserColumnsError | services/backend/src/database/models.py:6-8 | a value is rejected exactly when a column's max_length is exceeded |
| Store.NewUserRow | services/backend/src/crud/users.py:21-24 | the inserted row has the given username and the hashed password, and in valid tables its id is taken by no existing user |
| Store.CreateUserStep | services/backend/src/crud/users.py:11-27 | a missing password makes hashing raise; an over-long value is rejected; a taken username gives 400 "Username already exists"; otherwise one row with the hashed password is appended and returned without the password; every failure leaves the tables unchanged |
| Store.CreateUserKeepsValid | services/backend/src/crud/users.py:21-26 | registration preserves unique usernames, unique ids, column lengths and the foreign key |
| Store.CreatedUserIsFound | services/backend/src/crud/users.py:21-27 | after registration the user is found by name, with the returned id and the hashed password |
| Store.SecondRegistrationRejected | services/backend/tests/test_users_crud.py:28-43 | registering the same username twice gives a 400 the second time and changes nothing |
| Store.RemoveUser | services/backend/src/crud/users.py:45 | exactly the rows with other ids remain |
| Store.RemoveHistoryOf | services/backend/migrations/models/2_20251015125044_None.py:25 | the cascade keeps exactly the history rows of other users |
| Store.DeleteUserStep | services/backend/src/crud/users.py:29-50 | an unknown id gives 404 "User not found"; another user's id gives 403; one's own id removes the account and its history and returns "User deleted successfully" |
| Store.DeleteUserKeepsValid | services/backend/src/crud/users.py:44-48 | deletion preserves every constraint; no history row is left referring to the removed user |
| Store.DeletedUserIsGone | services/backend/tests/test_users_crud.py:57-64 | after self-deletion the account is found neither by id nor by name |
| Store.CreateDetectionRecordStep | services/backend/src/crud/detection.py:7-36 | an unknown user gives DoesNotExist; an over-long model name or a missing object count is rejected; otherwise the record is appended with the next id, the given user and the current time, and reads back as the submitted data |
| Store.BodyUserIdIgnored | services/backend/src/crud/detection.py:21-34 | the `user_id` inside the request body does not affect the result |
| Store.CreateDetectionRecordKeepsValid | services/backend/src/crud/detection.py:21-34 | recording a detection preserves every constraint |
| Store.UserInSchema.constructor | services/backend/src/schemas/users.py:7 | the input object holds username, full name and password as given |
| Store.Database.constructor | services/backend/migrations/models/2_20251015125044_None.py:6-26 | empty tables with both sequences at 1, satisfying every constraint |
| Store.Database.CreateUser | services/backend/src/crud/users.py:11-27 | the input object's password is replaced by its hash; the tables and the result are as `CreateUserStep` says |
| Store.Database.DeleteUser | services/backend/src/crud/users.py:29-50 | the tables and the result are as `DeleteUserStep` says; the constraints are kept |
| Store.Database.CreateDetectionRecord | services/backend/src/crud/detection.py:7-36 | the tables and the result are as `CreateDetectionRecordStep` says; the constraints are kept |
| Stats.Matching | services/backend/src/crud/detection.py:111-115 | exactly the user's rows, of the requested type when one is given; empty exactly when none match |
| Stats.LastDetection | services/backend/src/crud/detection.py:75-81 | none exactly when the user has no rows; otherwise the creation time of one of the user's rows, and no row of theirs is newer |
| Stats.ImagesPlusVideos | services/backend/src/crud/detection.py:52-60 | the image count and the video count add up to the user's rows |
| Stats.UserStats | services/backend/src/crud/detection.py:39-90 | an unknown user gives DoesNotExist; the image and video counts are the numbers of the user's rows of that type; the object total is the sum over the user's rows; the time total is the sum over the user's rows that have a processing time; the last detection is absent exactly when there are none and is otherwise the creation time of one of the user's rows with no row of theirs newer |
| Stats.Timed | services/backend/src/crud/detection.py:70-72 | exactly the rows that have a processing time |
| Stats.CountOfType | services/backend/src/crud/detection.py:53-60 | at most one per row, and zero when no row of the user has that type; `Stats.CountOfTypeIsMatching` gives its value |
| Stats.TotalDetections | services/backend/src/crud/detection.py:64-67 | zero when the user has no rows, and never negative when no count is; `Stats.TotalDetectionsIsSum` gives its value |
| Stats.TotalProcessingTime | services/backend/src/crud/detection.py:70-73 | zero when the user has no rows, and never negative when no time is; `Stats.TotalProcessingTimeIsSum` gives its value |
| Stats.CountOfTypeIsMatching | services/backend/src/crud/detection.py:52-60 | each count is the number of the user's rows of that type |
| Stats.TotalDetectionsIsSum | services/backend/src/crud/detection.py:64-67 | the object total is the sum of `detected_objects_count` over the user's rows |
| Stats.TotalProcessingTimeIsSum | services/backend/src/crud/detection.py:70-73 | the time total is the sum of `processing_time` over the user's rows whose processing time is not null |
| Stats.NewUserHasDefaultStats | services/backend/src/schemas/detection.py:42-50 | a user without history gets `UserStatsOut()` with every default |
| Stats.NoRowsNoTotals | services/backend/src/crud/detection.py:64-73 | with no rows of the user, both sums are zero |
| Stats.RecordUpdatesStats | services/backend/src/crud/detection.py:7-90 | recording a detection adds one image or video, its objects and its processing time to the user's statistics, and the last detection is at least as new as it |
| Stats.RecordLeavesOthersStats | services/backend/src/crud/detection.py:7-90 | recording for one user leaves every other user's statistics unchanged |
| Stats.NoStatsAfterDelete | services/backend/src/crud/detection.py:49-50 | after self-deletion, the statistics of the account fail with DoesNotExist |
| Stats.InsertPermutes | services/backend/src/crud/detection.py:120 | ordering adds no row and drops none: an insertion adds exactly the inserted row |
| Stats.InsertKeepsOrder | services/backend/src/crud/detection.py:120 | inserting into a newest-first list keeps it newest first and adds exactly the row |
| Stats.SortNewestFirst | services/backend/src/crud/detection.py:120 | keeps the number of rows; `Stats.SortIsNewestFirst` shows it is newest first and a permutation |
| Stats.SortIsNewestFirst | services/backend/src/crud/detection.py:120 | the sort is newest first and a permutation of its input |
| Stats.History | services/backend/src/crud/detection.py:93-120 | refused exactly for a negative limit; never more rows than match, nor more than a positive limit; `Stats.HistoryIsNewestMatching` states the rest |
| Stats.HistoryIsNewestMatching | services/backend/src/crud/detection.py:93-120 | fails only for a negative limit; the result is newest first and holds only matching rows, each at most as often as stored; its length is the nonzero limit or, if no limit applies, all matches; no matching row left out is newer than one returned |
| Stats.NewestPrefix | services/backend/src/crud/detection.py:117-120 | the first k of a newest-first list are newest first and no element left out is newer |
| Auth.VerifyPassword | services/backend/src/auth/user.py:15-27 | a password matches exactly when a hash is stored and verifies |
| Auth.ValidateUser | services/backend/src/auth/user.py:55-89 | success exactly when the name exists and the password verifies, returning that user's id, name, full name and hash; every failure is the same 401 "Incorrect username or password" |
| Auth.RegisteredUserCanLogIn | services/backend/src/auth/user.py:55-89 | a user registered with a password can log in with it, given that the hash verifies against its input |
| Auth.SchemeParam | services/backend/src/auth/jwthandler.py:48-50 | a missing or empty value gives two empty strings; otherwise the text is split at its first space |
| Auth.BearerToken | services/backend/src/auth/jwthandler.py:40-62 | a token is returned exactly when the cookie is present and non-empty and its scheme lowercases to "bearer"; otherwise a 401 "Not authenticated" with a Bearer challenge, or no token when auto_error is off |
| Auth.LoginCookieRoundTrip | services/backend/src/routes/users.py:64-66 | the cookie that login sets yields exactly the token it was built from |
| Auth.SchemeCaseIgnored | services/backend/src/auth/jwthandler.py:53 | the scheme word is accepted in any letter case |
| Auth.AccessTokenClaims | services/backend/src/auth/jwthandler.py:71-93 | "exp" is added, `delta` seconds ahead when given and nonzero and fifteen minutes ahead otherwise; the other claims are kept |
| Auth.CurrentUser | services/backend/src/auth/jwthandler.py:97-131 | success exactly when the token decodes, has a string "sub" and names an existing user, returning that user; every failure (a bad token, a missing or non-string "sub", an unknown name) is the same 401 "Could not validate credentials" |
| Auth.Authenticate | services/backend/src/auth/jwthandler.py:97 | a missing or non-Bearer cookie gives 401 "Not authenticated"; otherwise the cookie carries a token and the result is that token resolved as `CurrentUser` says |
| Auth.LoginClaims | services/backend/src/routes/users.py:53-58 | the token names the user as "sub" and expires after it is issued; `Auth.LoginClaimsContents` gives the exact claims |
| Auth.LoginCookie | services/backend/src/routes/users.py:64-66 | the cookie value splits at its first space into the scheme "Bearer" and exactly the token; `Auth.LoginCookieRoundTrip` reads it back |
| Auth.Login | services/backend/src/routes/users.py:41-73 | failure exactly when validation fails; success sets the cookie "Bearer {token}" for the user's claims, with max-age 1800 and the success message |
| Auth.LoginClaimsContents | services/backend/src/routes/users.py:53-58 | the login token carries exactly "sub" and "exp", expiring 1800 seconds after issue |
| Auth.LoginThenAuthenticate | services/backend/src/routes/users.py:41-73 | sending back the cookie from a login authenticates as the user who logged in, given that the codec decodes what it signed |
| YoloStore.ModelsUpdate | services/frontend/src/store/modules/yolo.js:137-147 | a truthy `data.models` becomes the list, and a truthy `current_model` becomes the current model; in every other case the current model is kept; otherwise the list is `data`, or `[]` when data is falsy; nothing else changes |
| YoloStore.ActionCommits | services/frontend/src/store/modules/yolo.js:36-121 | every action commits loading on, error cleared, then its success mutation or its failure message, then loading off |
| YoloStore.ActionSettles | services/frontend/src/store/modules/yolo.js:36-121 | after an action the store is not loading; the error is set exactly when the request failed; a failure changes nothing else; a success applies only its mutation |
| YoloStore.ChangeModelSetsCurrentOnSuccess | services/frontend/src/store/modules/yolo.js:103-121 | the current model becomes the chosen path only when the backend accepted the change |
| YoloStore.ClearResultsEffect | services/frontend/src/store/modules/yolo.js:124-127 | clearing empties the results and the error and keeps everything else |
| YoloStore.ModelsResponseAccepted | services/frontend/src/store/modules/yolo.js:137-147 | the backend's models response sets the list, even when empty, and a nonempty current model name |
| YoloStore.YoloModule.constructor | services/frontend/src/store/modules/yolo.js:6-17 | the initial state: no results, an empty model list, no current model, not loading, no error |
| YoloStore.Apply | services/frontend/src/store/modules/yolo.js:131-160 | each mutation changes only its own field (`setAvailableModels` the list and possibly the current model) and leaves every other field as it was |
| YoloStore.YoloModule.Commit | services/frontend/src/store/modules/yolo.js:131-160 | a mutation changes the fields as `Apply` says and is logged |
| YoloStore.YoloModule.Run | services/frontend/src/store/modules/yolo.js:36-121 | an action commits `ActionCommits` in order and returns the response data or passes the rejection on |
| YoloStore.YoloModule.ClearResults | services/frontend/src/store/modules/yolo.js:124-127 | clearing commits exactly its two mutations |
| PyText.NatToString | services/backend/src/yolo/detector.py:300 | decimal digits, at least two of them from 10 on |
| PyText.ParseNatToString | services/backend/src/yolo/detector.py:300 | parsing the decimal text gives back the number |
| PyText.NatToStringInjective | services/backend/src/yolo/detector.py:300 | different numbers have different decimal texts |
| PyText.Basename | services/backend/src/routes/yolo.py:91-93 | the result has no "/", is a suffix of the path, and is preceded by "/" when shorter |
| PyText.BasenameAfterSlash | services/backend/src/yolo/detector.py:300 | the file name of `dir + "/" + name` is `name` |
| PyText.Join | services/backend/src/routes/yolo.py:39-41 | an absolute second part replaces the first; otherwise the result starts with the first part and ends with the second |
| PyText.BasenameOfJoin | services/backend/src/routes/yolo.py:139 | the file name of a joined plain name is that name |
| PyText.RFind | services/backend/src/yolo/detector.py:91-93 | -1 exactly when the character is absent; otherwise its last position |
| PyText.Stem | services/backend/src/yolo/detector.py:91-93 | the stem has no "/" |
| PyText.StemDropsSuffix | services/backend/src/yolo/detector.py:91-93 | the stem of `dir/x.ext` is `x` when `x` is non-empty and `ext` has no "." |
| PyText.AsciiLower | services/backend/src/auth/jwthandler.py:53 | each character is lowercased, and the length is kept |
| PyText.SplitAtFirstSpace | services/backend/src/auth/jwthandler.py:48-50 | the head has no space; with a space the text is head, space, tail; without one the tail is empty |
| PyText.SplitWordAndRest | services/backend/src/auth/jwthandler.py:48-50 | a space-free word, a space and a rest split back into the word and the rest |

## Left out

- File system effects are not modelled: `os.makedirs`, the bytes written by `open`/`copyfileobj`, `cv2.imwrite` and the pixels that `cv2.rectangle`/`cv2.putText` draw. The model records which file receives which result or frame.
- Inference, the network weights and floating-point confidences are left to inputs. Confidences are reals, and the label text `{conf:.2f}` is not modelled.
- Detector.Detector.DetectVideo: how `cv2.VideoWriter` turns out is an input (`WriterOutcome`). `Detector.OpenWriter` relates it to the frame-size argument: as written (a set) only `WriterRaised` can occur (see Findings), and the other two outcomes describe the corrected call. The width, height and fps read from the capture are not modelled.
- Detector.Detector.DetectVideo: when the writer cannot be created or inference raises, the capture and writer are not released, and the frames already written stay in a partial output file. Releasing resources and partial files are not modelled.
- Detector.AnnotateBoxes: a frame's results are one list of detections. A result whose `boxes` is None contributes nothing, which is the same as an empty list.
- Detector.FrameLoop: the progress message every 100 frames and all other `print` output are left out.
- Detector.Detector.Init: `torch.cuda.is_available()` is a boolean input.
- The self-test under `if __name__ == "__main__"` in detector.py is not part of this model.
- YoloRoutes.SaveUploads: an upload whose file name is absolute is saved at that absolute path, because `os.path.join` follows `PyText.Join`. The model keeps this behaviour.
- YoloRoutes.AvailableModels: the order of `os.listdir` is unspecified, so the listing is an input. The existence check and `makedirs` on the models directory are left out.
- YoloRoutes.DetectPictureRoute: the output directory is the detector method's default argument `src/yolo/output/images`. I/O failures while saving uploads are left out.
- Stats.HistoryIsNewestMatching: SQL does not fix the order of rows with equal `created_at`. The lemma allows any tie order, and `Stats.SortNewestFirst` keeps table order.
- Stats.History: a negative limit is modelled as a refused query (`NegativeLimit`). It is not modelled which layer refuses it.
- Stats.UserStats: the processing-time sum uses exact reals, not floating point.
- Store.DetectionRecord: `processing_time` is nullable. The second migration declares it NOT NULL, but the schema defaults it to None and the statistics query filters on `processing_time__isnull`. The ORM class `DetectionHistory` is not part of the source files, so its fields follow the second migration as renamed by the third and the schema.
- Store.CreateUserStep: the id sequence advances only on a successful insert. PostgreSQL also consumes a value on a failed insert, and that is not modelled.
- Store.DeleteUserStep: the second "User not found" (no row deleted after the lookup found one) requires a concurrent deletion and is not modelled.
- Store.CreateDetectionRecordStep: when both happen, a too-long model name is reported before a missing object count. This order is a modelling choice, since the ORM class is not part of the source files.
- Auth.BearerToken: `str.lower` is modelled on ASCII letters only. No other character lowercases to a letter of "bearer", so the comparison is the same.
- Auth: bcrypt (`hash`, `verify`) and the JWT codec (`encode`, `decode`) are parameters. Signature and expiry checking are inside `decode`, and the secret key is not modelled.
- Auth.CurrentUser: claim values are strings, integers or null; lists and objects as "sub" are refused like any other non-string and are not modelled separately.
- PyText.Stem: `pathlib` normalises paths that end in "/" or "/." before taking the stem; the model does not, and no path it builds ends so.
- Records.UserText: the rendering of the timestamp is a parameter.
- YoloStore: HTTP requests, `FormData`, `console.error` and the getters are left out. The getters only return state fields. The actions' responses are inputs. Concurrently running actions, whose commits may interleave, are not modelled.
- The application set-up in main.py, the database registration and its configuration are not part of this model.

## Findings

| source | as written | input that shows it | evidently intended | confidence | as-written member | corrected member |
|---|---|---|---|---|---|---|
| services/backend/src/yolo/detector.py:282-285 | `full_path = pre_path + new_model_path`, and `models_dir` is "src/yolo/models" with no trailing "/" | `change_model("yolo11s.pt")` with `src/yolo/models/yolo11s.pt` present (the name `available_models` lists) raises "Model file not found at src/yolo/modelsyolo11s.pt" | join the directory and the name with `os.path.join` | high; not executed | Detector.ListedModelNotSwitchable | Detector.ListedModelSwitchable |
| services/backend/src/yolo/detector.py:287-288 | `self.model_path` is assigned before `load_model()`, which can raise | an existing file `bad.pt` that the model library rejects: afterwards `model_path` names `bad.pt` while `model` and `model_name` still belong to `yolo11n.pt`, and `available_models` reports `bad.pt` as current | change nothing unless the new model loads | medium; not executed | Detector.SwitchCanBreakConsistency | Detector.SwitchAtomic |
| services/backend/src/yolo/detector.py:172-175 | `return ValueError(error_msg)`; the route then calls `os.path.basename` on the returned object (routes/yolo.py:91-93) | a video file OpenCV cannot open: the client gets a 500 "expected str, bytes or os.PathLike object, not ValueError" | `raise ValueError(error_msg)`, so the client gets "无法打开视频文件:{path}" | high; not executed | YoloRoutes.UnopenableVideoHidesReason | YoloRoutes.UnopenableVideoReportsReason |
| services/backend/src/yolo/detector.py:195 | `cv2.VideoWriter(output_video_path, fourcc, fps, {width, height})` passes the frame size as a set | any video OpenCV can open: the binding does not accept a set as a size, so the constructor raises and the route answers 500; for a square video the set even has one element | pass the pair `(width, height)` | medium; not executed | Detector.FrameSizeSetRejected | Detector.FrameSizePairAccepted |
