/**
 * The `/yolo` endpoints of `routes/yolo.py`: uploads are saved under a fixed
 * directory, the shared detector does the work, and every exception
 * becomes an HTTP 500 carrying `str(e)` (except a missing model, a 404).
 * The upload directory is a map from path to content; directory listing
 * and the detector's inputs are parameters.
 */
module YoloRoutes {
  import opened Wrappers
  import opened PyText
  import opened Detector
  import opened Auth

  const ImageUploadDir := "src/yolo/uploads/images"
  const VideoUploadDir := "src/yolo/uploads/videos"
  const DefaultFormThreshold := 0.25
  const DetectionDone := "Detection completed successfully"

  /** An `UploadFile`: the client's file name and the bytes sent. */
  datatype Upload = Upload(filename: string, content: string)

  /** Failures become a 500 whose detail is the exception's message. */
  function ServerError(message: string): HttpFailure {
    HttpFailure(500, message, None)
  }

  // ---------------------------------------------------------------------
  // Saving uploads

  /** Where each upload is saved: `os.path.join(save_dir, file.filename)`. */
  function UploadPaths(dir: string, uploads: seq<Upload>): (paths: seq<string>)
    ensures |paths| == |uploads|
    ensures forall i :: 0 <= i < |uploads| ==> paths[i] == Join(dir, uploads[i].filename)
  {
    seq(|uploads|, i requires 0 <= i < |uploads| => Join(dir, uploads[i].filename))
  }

  /** The stored files after writing every upload in turn; a later upload overwrites an earlier one at the same path. */
  function Saved(stored: map<string, string>, dir: string, uploads: seq<Upload>): map<string, string> {
    if |uploads| == 0 then stored
    else
      var last := uploads[|uploads| - 1];
      Saved(stored, dir, uploads[..|uploads| - 1])[Join(dir, last.filename) := last.content]
  }

  /** After saving, the stored paths are the earlier ones and the upload paths. */
  lemma {:induction false} SavedPaths(stored: map<string, string>, dir: string, uploads: seq<Upload>)
    ensures Saved(stored, dir, uploads).Keys == stored.Keys + (set p | p in UploadPaths(dir, uploads))
  {
    if |uploads| > 0 {
      var init := uploads[..|uploads| - 1];
      SavedPaths(stored, dir, init);
      var paths := UploadPaths(dir, uploads);
      assert paths == UploadPaths(dir, init) + [Join(dir, uploads[|uploads| - 1].filename)];
    }
  }

  /** An upload's path holds its content unless a later upload is written to the same path. */
  lemma {:induction false} SavedLastWins(stored: map<string, string>, dir: string, uploads: seq<Upload>, i: nat)
    requires i < |uploads|
    requires forall j :: i < j < |uploads| ==> Join(dir, uploads[j].filename) != Join(dir, uploads[i].filename)
    ensures Join(dir, uploads[i].filename) in Saved(stored, dir, uploads)
    ensures Saved(stored, dir, uploads)[Join(dir, uploads[i].filename)] == uploads[i].content
  {
    if i < |uploads| - 1 {
      var init := uploads[..|uploads| - 1];
      assert init[i] == uploads[i];
      forall j | i < j < |init|
        ensures Join(dir, init[j].filename) != Join(dir, init[i].filename)
      {
        assert init[j] == uploads[j];
      }
      SavedLastWins(stored, dir, init, i);
    }
  }

  /** A file at a path no upload goes to keeps its content. */
  lemma {:induction false} SavedKeepsOthers(stored: map<string, string>, dir: string, uploads: seq<Upload>, p: string)
    requires p in stored && p !in UploadPaths(dir, uploads)
    ensures p in Saved(stored, dir, uploads) && Saved(stored, dir, uploads)[p] == stored[p]
  {
    if |uploads| > 0 {
      var init := uploads[..|uploads| - 1];
      assert UploadPaths(dir, uploads) == UploadPaths(dir, init) + [Join(dir, uploads[|uploads| - 1].filename)];
      SavedKeepsOthers(stored, dir, init, p);
    }
  }

  /** Proof helper: saving one more upload writes its content at its path. */
  lemma SavedAppend(stored: map<string, string>, dir: string, uploads: seq<Upload>, u: Upload)
    ensures Saved(stored, dir, uploads + [u]) == Saved(stored, dir, uploads)[Join(dir, u.filename) := u.content]
  {
    assert (uploads + [u])[..|uploads|] == uploads;
  }

  /** Proof helper: one more upload adds its path at the end. */
  lemma UploadPathsAppend(dir: string, uploads: seq<Upload>, u: Upload)
    ensures UploadPaths(dir, uploads + [u]) == UploadPaths(dir, uploads) + [Join(dir, u.filename)]
  {
    assert UploadPaths(dir, uploads + [u])[|uploads|] == Join(dir, u.filename);
  }

  /** The saving loop of `detect_picture`: write each upload, collect its path. */
  method SaveUploads(stored: map<string, string>, dir: string, uploads: seq<Upload>)
    returns (files: map<string, string>, paths: seq<string>)
    ensures files == Saved(stored, dir, uploads)
    ensures paths == UploadPaths(dir, uploads)
  {
    files := stored;
    paths := [];
    for i := 0 to |uploads|
      invariant files == Saved(stored, dir, uploads[..i])
      invariant paths == UploadPaths(dir, uploads[..i])
    {
      var path := Join(dir, uploads[i].filename);
      files := files[path := uploads[i].content];
      paths := paths + [path];
      assert uploads[..i + 1] == uploads[..i] + [uploads[i]];
      SavedAppend(stored, dir, uploads[..i], uploads[i]);
      UploadPathsAppend(dir, uploads[..i], uploads[i]);
    }
    assert uploads[..|uploads|] == uploads;
  }

  // ---------------------------------------------------------------------
  // POST /yolo/detect_picture

  /** The names the response lists: `detected_{i}.jpg` for every uploaded file. */
  function OutputImages(n: nat): (names: seq<string>)
    ensures |names| == n
  {
    seq(n, i requires 0 <= i < n => "detected_" + NatToString(i) + ".jpg")
  }

  /**
   * When inference gives one result per upload, the i-th listed name is
   * the file name of the i-th image the detector wrote.
   */
  lemma OutputImagesNameWrites(dir: string, results: seq<ImageResult>)
    ensures forall i :: 0 <= i < |results| ==>
      OutputImages(|results|)[i] == Basename(PictureWrites(dir, results)[i].path)
  {
    forall i | 0 <= i < |results|
      ensures OutputImages(|results|)[i] == Basename(PictureWrites(dir, results)[i].path)
    {
      var name := "detected_" + NatToString(i) + ".jpg";
      assert '/' !in name by {
        assert forall k :: 0 <= k < |NatToString(i)| ==> NatToString(i)[k] != '/';
        assert name == "detected_" + NatToString(i) + ".jpg";
        forall k | 0 <= k < |name| ensures name[k] != '/' {
          if k < 9 {
            assert name[k] == "detected_"[k];
          } else if k < 9 + |NatToString(i)| {
            assert name[k] == NatToString(i)[k - 9];
          } else {
            assert name[k] == ".jpg"[k - 9 - |NatToString(i)|];
          }
        }
      }
      assert PictureOutputName(dir, i) == dir + "/" + name;
      BasenameAfterSlash(dir, name);
    }
  }

  datatype PictureBody = PictureBody(message: string, outputImages: seq<string>)

  /**
   * `detect_picture`: save the uploads, run the detector on their paths with
   * the form's threshold, list one output name per upload.
   */
  method DetectPictureRoute(detector: Detector, stored: map<string, string>, uploads: seq<Upload>, conf: real,
                            predict: PredictCall -> Result<seq<ImageResult>, string>)
    returns (r: Result<PictureBody, HttpFailure>, files: map<string, string>)
    modifies detector`results
    ensures files == Saved(stored, ImageUploadDir, uploads)
    ensures var call := PredictCall(UploadPaths(ImageUploadDir, uploads),
                                    EffectiveThreshold(Some(conf), detector.config.defaultConfThreshold),
                                    detector.config.defaultImgsz);
      match predict(call)
      case Err(m) => r == Err(ServerError(m)) && detector.results == old(detector.results)
      case Ok(rs) => r == Ok(PictureBody(DetectionDone, OutputImages(|uploads|))) && detector.results == rs
  {
    var paths;
    files, paths := SaveUploads(stored, ImageUploadDir, uploads);
    var run := detector.DetectPicture(paths, Some(conf), Some(PictureDirArgument), predict);
    if run.Err? {
      return Err(ServerError(ErrorMessage(run.error))), files;
    }
    r := Ok(PictureBody(DetectionDone, OutputImages(|uploads|)));
  }

  // ---------------------------------------------------------------------
  // POST /yolo/detect_video

  datatype VideoBody = VideoBody(message: string, outputVideo: string)

  /** What `os.path.basename` raises when handed the ValueError object instead of a path. */
  const BasenameTypeError := "expected str, bytes or os.PathLike object, not ValueError"

  /** The response `detect_video` builds from the detector's outcome, as written. */
  function VideoResponse(outcome: Result<VideoRun, DetectorError>): (r: Result<VideoBody, HttpFailure>)
    ensures r.Ok? <==> outcome.Ok? && outcome.value.returned.OutputPath?
    ensures r.Ok? ==> r.value == VideoBody(DetectionDone, Basename(outcome.value.returned.path))
    ensures outcome.Err? ==> r == Err(ServerError(ErrorMessage(outcome.error)))
    ensures outcome.Ok? && outcome.value.returned.ValueErrorObject? ==> r == Err(ServerError(BasenameTypeError))
  {
    match outcome
    case Err(e) => Err(ServerError(ErrorMessage(e)))
    case Ok(run) =>
      match run.returned
      case OutputPath(p) => Ok(VideoBody(DetectionDone, Basename(p)))
      case ValueErrorObject(_) => Err(ServerError(BasenameTypeError))
  }

  /**
   * The response as evidently intended: the detector raises its ValueError,
   * so the client reads why the video could not be processed.
   */
  function VideoResponseRaised(outcome: Result<VideoRun, DetectorError>): (r: Result<VideoBody, HttpFailure>)
    ensures r.Ok? <==> outcome.Ok? && outcome.value.returned.OutputPath?
    ensures r.Ok? ==> r.value == VideoBody(DetectionDone, Basename(outcome.value.returned.path))
    ensures outcome.Err? ==> r == Err(ServerError(ErrorMessage(outcome.error)))
    ensures outcome.Ok? && outcome.value.returned.ValueErrorObject? ==> r == Err(ServerError(outcome.value.returned.message))
  {
    match outcome
    case Err(e) => Err(ServerError(ErrorMessage(e)))
    case Ok(run) =>
      match run.returned
      case OutputPath(p) => Ok(VideoBody(DetectionDone, Basename(p)))
      case ValueErrorObject(m) => Err(ServerError(m))
  }

  /** The detector's outcome for a video it could not open. */
  function Unopened(videoPath: string): Result<VideoRun, DetectorError> {
    Ok(VideoRun(ValueErrorObject(CannotOpenVideoMessage(videoPath)), false, [], 0))
  }

  /**
   * As written, a video that cannot be opened is reported with a type error,
   * and the report is the same whichever video it was.
   */
  lemma UnopenableVideoHidesReason(videoPath: string, otherPath: string)
    ensures VideoResponse(Unopened(videoPath)) == Err(ServerError(BasenameTypeError))
    ensures VideoResponse(Unopened(videoPath)) == VideoResponse(Unopened(otherPath))
  {
  }

  /** Corrected, the detector's own message reaches the client, and it names the video. */
  lemma UnopenableVideoReportsReason(videoPath: string, otherPath: string)
    ensures VideoResponseRaised(Unopened(videoPath)) == Err(ServerError(CannotOpenVideoMessage(videoPath)))
    ensures videoPath != otherPath ==> VideoResponseRaised(Unopened(videoPath)) != VideoResponseRaised(Unopened(otherPath))
  {
    if videoPath != otherPath {
      var a := CannotOpenVideoMessage(videoPath);
      var b := CannotOpenVideoMessage(otherPath);
      var prefix := "无法打开视频文件:";
      assert a[|prefix|..] == videoPath && b[|prefix|..] == otherPath;
    }
  }

  /**
   * `detect_video`: save the upload, run the detector on it with the form's
   * threshold and report the name of the annotated video.
   */
  method DetectVideoRoute(detector: Detector, stored: map<string, string>, upload: Upload, conf: real,
                          capture: Capture, writer: WriterOutcome, draw: nat -> Color)
    returns (r: Result<VideoBody, HttpFailure>, files: map<string, string>)
    ensures files == stored[Join(VideoUploadDir, upload.filename) := upload.content]
    ensures capture.Unopenable? ==> r == Err(ServerError(BasenameTypeError))
    ensures capture.Opened? && writer.WriterRaised? ==> r == Err(ServerError(writer.message))
    ensures capture.Opened? && writer.WriterOpened? && capture.inferenceFailure.Some? ==>
      r == Err(ServerError(capture.inferenceFailure.value))
    ensures var outputPath := VideoOutputPath(detector.config.outputVideoDir, Join(VideoUploadDir, upload.filename), detector.modelName);
      && (capture.Opened? && writer.WriterNotOpened? ==> r == Err(ServerError(CannotCreateVideoMessage(outputPath))))
      && (capture.Opened? && writer.WriterOpened? && capture.inferenceFailure.None? ==>
            r == Ok(VideoBody(DetectionDone, Basename(outputPath))))
  {
    var path := Join(VideoUploadDir, upload.filename);
    files := stored[path := upload.content];
    var outcome := detector.DetectVideo(path, Some(conf), None, capture, writer, draw);
    r := VideoResponse(outcome);
  }

  /**
   * As written, every video that opens is answered with a 500 carrying the
   * binding's complaint about the frame size, whatever else happens.
   */
  lemma OpenedVideoAnsweredWithWriterError(width: int, height: int, opens: bool, rejection: string)
    ensures var writer := OpenWriter(FrameSizeAsWritten(width, height), opens, rejection);
      VideoResponse(Err(VideoWriterError(writer.message))) == Err(ServerError(rejection))
  {
    FrameSizeSetRejected(width, height, opens, rejection);
  }

  /** A successful video response names `{stem}_{model}_detected.mp4`, whatever the output directory. */
  lemma VideoResponseNamesOutput(outputDir: string, videoPath: string, modelName: string)
    requires '/' !in modelName
    ensures VideoResponse(Ok(VideoRun(OutputPath(VideoOutputPath(outputDir, videoPath, modelName)), true, [], 0)))
      == Ok(VideoBody(DetectionDone, VideoOutputName(videoPath, modelName)))
  {
    VideoOutputBasename(outputDir, videoPath, modelName);
  }

  // ---------------------------------------------------------------------
  // POST /yolo/change_model

  const ModelChangedPrefix := "Model changed successfully to "
  const ModelMissing := HttpFailure(404, "Model file not found", None)

  /** The response to a model change: a missing file is a 404, any other failure a 500. */
  function ChangeModelResponse(name: string, err: Option<DetectorError>): (r: Result<string, HttpFailure>)
    ensures err.None? <==> r.Ok?
    ensures r.Ok? ==> r.value == ModelChangedPrefix + name
    ensures err.Some? && err.value.FileNotFound? ==> r == Err(ModelMissing)
    ensures err.Some? && !err.value.FileNotFound? ==> r == Err(ServerError(ErrorMessage(err.value)))
  {
    match err
    case None => Ok(ModelChangedPrefix + name)
    case Some(FileNotFound(_)) => Err(ModelMissing)
    case Some(e) => Err(ServerError(ErrorMessage(e)))
  }

  /** `change_model`: ask the shared detector to switch, then shape the response. */
  method ChangeModelRoute(detector: Detector, name: string, disk: Disk) returns (r: Result<string, HttpFailure>)
    modifies detector`modelPath, detector`model, detector`modelName
    ensures var step := Switch(old(detector.State()), detector.config, name, disk);
      detector.State() == step.state && r == ChangeModelResponse(name, step.error)
  {
    var err := detector.ChangeModel(name, disk);
    r := ChangeModelResponse(name, err);
  }

  /**
   * With the default configuration, choosing a model the listing offers
   * ("yolo11s.pt" beside "yolo11n.pt") is answered with a 404.
   */
  lemma ListedModelIsAnswered404()
    ensures var disk := Disk({Join(DefaultConfig.modelsDir, "yolo11n.pt"), Join(DefaultConfig.modelsDir, "yolo11s.pt")}, map[]);
      && Listed(disk, DefaultConfig.modelsDir, "yolo11s.pt")
      && forall s :: ChangeModelResponse("yolo11s.pt", Switch(s, DefaultConfig, "yolo11s.pt", disk).error) == Err(ModelMissing)
  {
    ListedModelNotSwitchable();
  }

  // ---------------------------------------------------------------------
  // GET /yolo/available_models

  /** The entries of a directory listing whose names end in ".pt", in listing order. */
  function PtFiles(entries: seq<string>): (models: seq<string>)
    ensures forall f :: f in models <==> f in entries && EndsWith(f, ".pt")
    ensures |models| <= |entries|
  {
    if |entries| == 0 then []
    else (if EndsWith(entries[0], ".pt") then [entries[0]] else []) + PtFiles(entries[1..])
  }

  /**
   * Filtering a listing splits over its parts, so the models keep the order
   * in which `os.listdir` gave them.
   */
  lemma {:induction false} PtFilesKeepsOrder(front: seq<string>, back: seq<string>)
    ensures PtFiles(front + back) == PtFiles(front) + PtFiles(back)
    decreases |front|
  {
    if |front| > 0 {
      assert (front + back)[0] == front[0];
      assert (front + back)[1..] == front[1..] + back;
      PtFilesKeepsOrder(front[1..], back);
    } else {
      assert front + back == back;
    }
  }

  datatype ModelsBody = ModelsBody(models: seq<string>, currentModel: string)

  /**
   * `get_available_models`: the ".pt" files in listing order, and the last
   * component of the detector's model path (everything after its last "/").
   */
  function AvailableModels(entries: seq<string>, modelPath: string): (body: ModelsBody)
    ensures body.models == PtFiles(entries)
    ensures forall f :: f in body.models <==> f in entries && EndsWith(f, ".pt")
    ensures var c := body.currentModel;
      && '/' !in c && EndsWith(modelPath, c)
      && (|c| < |modelPath| ==> modelPath[|modelPath| - |c| - 1] == '/')
  {
    ModelsBody(PtFiles(entries), Basename(modelPath))
  }

  /** After a corrected switch to a plain file name, the listing reports that name as current. */
  lemma CurrentModelAfterSwitch(s: ModelState, cfg: Config, name: string, disk: Disk, entries: seq<string>)
    requires '/' !in name
    requires SwitchAtomic(s, cfg, name, disk).error.None?
    ensures AvailableModels(entries, SwitchAtomic(s, cfg, name, disk).state.modelPath).currentModel == name
  {
    BasenameOfJoin(cfg.modelsDir, name);
  }
}
