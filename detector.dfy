/**
 * The YOLO detector service (`services/backend/src/yolo/detector.py`).
 *
 * The detector object keeps its configuration, the path and name of the
 * active model, the loaded model and the results of the last picture batch.
 * The file system is a set of existing paths (`Disk`); the model library is
 * reduced to which files it refuses to load; inference results are inputs
 * (the detections of each image or video frame); the random colour chosen
 * for a new class is an oracle `draw`, asked with the number of classes
 * coloured so far.
 */
module Detector {
  import opened Wrappers
  import opened PyText

  // ---------------------------------------------------------------------
  // Configuration

  /** The `DetectorCOnfig` dataclass. */
  datatype Config = Config(
    defaultConfThreshold: real,
    defaultImgsz: nat,
    outputImageDir: string,
    outputVideoDir: string,
    modelsDir: string)

  /** `DetectorCOnfig()` with every field at its declared default. */
  const DefaultConfig := Config(0.25, 640, "src/yolo/output/images", "src/yolo/output/videos", "src/yolo/models")

  /** The default `model_path` argument of the constructor. */
  const DefaultModelPath := "src/yolo/models/yolo11n.pt"

  /** The default `output_dir` argument of `detect_picture`. */
  const PictureDirArgument := "src/yolo/output/images"

  /**
   * `conf_threshold or default`: Python's `or` replaces both a missing
   * threshold and a threshold of 0.0 by the configured default.
   */
  function EffectiveThreshold(conf: Option<real>, default: real): (t: real)
    ensures conf.Some? && conf.value != 0.0 ==> t == conf.value
    ensures conf.None? || conf.value == 0.0 ==> t == default
  {
    match conf
    case None => default
    case Some(c) => if c != 0.0 then c else default
  }

  /** `output_dir or default`: a missing or empty directory becomes the configured one. */
  function EffectiveDir(dir: Option<string>, default: string): (d: string)
    ensures dir.Some? && dir.value != "" ==> d == dir.value
    ensures dir.None? || dir.value == "" ==> d == default
  {
    match dir
    case None => default
    case Some(s) => if s != "" then s else default
  }

  // ---------------------------------------------------------------------
  // Loading and switching models

  /**
   * The files the detector can see: `files` exist (`os.path.exists`), and
   * the model library raises `broken[p]` when asked to load an existing
   * file `p` it cannot read.
   */
  datatype Disk = Disk(files: set<string>, broken: map<string, string>)

  datatype Device = Cuda | Cpu

  /** The `model` field: nothing loaded yet, or the network read from a weights file. */
  datatype Model = Unloaded | Yolo(weights: string)

  /** The exceptions the detector raises. */
  datatype DetectorError =
    | FileNotFound(message: string)   // FileNotFoundError
    | LoadFailed(message: string)     // raised by the model library on an unreadable file
    | PredictFailed(message: string)  // raised by inference, e.g. on an image it cannot decode
    | WriterFailed(message: string)   // RuntimeError: the output video could not be created
    | VideoWriterError(message: string) // cv2.error raised by the VideoWriter constructor itself

  /** `str(e)` for each exception. */
  function ErrorMessage(e: DetectorError): string {
    match e
    case FileNotFound(m) => m
    case LoadFailed(m) => m
    case PredictFailed(m) => m
    case WriterFailed(m) => m
    case VideoWriterError(m) => m
  }

  function ModelNotFoundMessage(path: string): string {
    "Model file not found at " + path
  }

  /** The three fields that loading a model sets: `model_path`, `model`, `model_name`. */
  datatype ModelState = ModelState(modelPath: string, model: Model, modelName: string)

  /** The loaded network and the reported name both belong to `model_path`. */
  predicate Consistent(s: ModelState) {
    s.model == Yolo(s.modelPath) && s.modelName == Stem(s.modelPath)
  }

  datatype Step = Step(state: ModelState, error: Option<DetectorError>)

  /**
   * `load_model`: a missing file raises FileNotFoundError before anything
   * changes; a file the library rejects raises its error, also before any
   * field is assigned; otherwise the model and its name follow `model_path`.
   */
  function Load(s: ModelState, disk: Disk): (r: Step)
    ensures r.error.None? <==> s.modelPath in disk.files && s.modelPath !in disk.broken
    ensures r.error.Some? ==> r.state == s
    ensures r.error.None? ==> Consistent(r.state) && r.state.modelPath == s.modelPath
    ensures s.modelPath !in disk.files ==> r.error == Some(FileNotFound(ModelNotFoundMessage(s.modelPath)))
  {
    if s.modelPath !in disk.files then Step(s, Some(FileNotFound(ModelNotFoundMessage(s.modelPath))))
    else if s.modelPath in disk.broken then Step(s, Some(LoadFailed(disk.broken[s.modelPath])))
    else Step(ModelState(s.modelPath, Yolo(s.modelPath), Stem(s.modelPath)), None)
  }

  /** The path `change_model` tries: the models directory and the name glued together, no separator. */
  function ConcatModelPath(modelsDir: string, name: string): (p: string)
    ensures |p| == |modelsDir| + |name| && p[..|modelsDir|] == modelsDir && p[|modelsDir|..] == name
  {
    modelsDir + name
  }

  /**
   * `change_model` as written: the existence check comes first and changes
   * nothing when it fails, but `model_path` is assigned before `load_model`,
   * so a file that exists and fails to load leaves the new path beside the
   * old model and the old name.
   */
  function Switch(s: ModelState, cfg: Config, name: string, disk: Disk): (r: Step)
    ensures var full := ConcatModelPath(cfg.modelsDir, name);
      && (full !in disk.files ==> r == Step(s, Some(FileNotFound(ModelNotFoundMessage(full)))))
      && (full in disk.files && full !in disk.broken ==> r.error.None? && Consistent(r.state) && r.state.modelPath == full)
      && (full in disk.files && full in disk.broken ==>
            r.error == Some(LoadFailed(disk.broken[full])) && r.state == s.(modelPath := full))
  {
    var full := ConcatModelPath(cfg.modelsDir, name);
    if full !in disk.files then Step(s, Some(FileNotFound(ModelNotFoundMessage(full))))
    else Load(s.(modelPath := full), disk)
  }

  /**
   * `change_model` as evidently intended: the name is joined to the models
   * directory with `os.path.join`, and the switch is all or nothing.
   */
  function SwitchAtomic(s: ModelState, cfg: Config, name: string, disk: Disk): (r: Step)
    ensures r.error.Some? ==> r.state == s
    ensures r.error.None? <==> Join(cfg.modelsDir, name) in disk.files && Join(cfg.modelsDir, name) !in disk.broken
    ensures r.error.None? ==> Consistent(r.state) && r.state.modelPath == Join(cfg.modelsDir, name)
    ensures Consistent(s) ==> Consistent(r.state)
  {
    var loaded := Load(s.(modelPath := Join(cfg.modelsDir, name)), disk);
    if loaded.error.Some? then Step(s, loaded.error) else loaded
  }

  /** `listdir(models_dir)` as far as the file set shows it: the names of files directly inside the directory. */
  predicate Listed(disk: Disk, dir: string, name: string) {
    name != "" && '/' !in name && Join(dir, name) in disk.files
  }

  /** Gluing `name` to a directory that does not end in "/" never gives the path `os.path.join` gives for any name. */
  lemma ConcatIsNotJoin(dir: string, name: string, other: string)
    requires dir != "" && dir[|dir| - 1] != '/'
    requires name != "" && name[0] != '/'
    requires !(other != "" && other[0] == '/')
    ensures ConcatModelPath(dir, name) != Join(dir, other)
  {
    assert ConcatModelPath(dir, name)[|dir|] == name[0];
    assert Join(dir, other)[|dir|] == '/';
  }

  /**
   * As written, a model that `available_models` lists (say `yolo11s.pt`
   * beside the default `yolo11n.pt`) cannot be selected by that name: the
   * concatenated path `src/yolo/modelsyolo11s.pt` does not exist, so the
   * switch reports the file as missing and keeps the old model.
   */
  lemma ListedModelNotSwitchable()
    ensures var dir := DefaultConfig.modelsDir;
      var s := ModelState(DefaultModelPath, Yolo(DefaultModelPath), "yolo11n");
      var disk := Disk({Join(dir, "yolo11n.pt"), Join(dir, "yolo11s.pt")}, map[]);
      && Listed(disk, dir, "yolo11s.pt")
      && Switch(s, DefaultConfig, "yolo11s.pt", disk)
         == Step(s, Some(FileNotFound(ModelNotFoundMessage("src/yolo/modelsyolo11s.pt"))))
  {
    var dir := DefaultConfig.modelsDir;
    assert dir[|dir| - 1] == 's';
    ConcatIsNotJoin(dir, "yolo11s.pt", "yolo11n.pt");
    ConcatIsNotJoin(dir, "yolo11s.pt", "yolo11s.pt");
    assert ConcatModelPath(dir, "yolo11s.pt") == "src/yolo/modelsyolo11s.pt";
    assert '/' !in "yolo11s.pt";
  }

  /** Corrected, every listed model that the library can read is switched to, and its name is the file's stem. */
  lemma ListedModelSwitchable(s: ModelState, cfg: Config, disk: Disk, name: string)
    requires Listed(disk, cfg.modelsDir, name)
    requires Join(cfg.modelsDir, name) !in disk.broken
    ensures SwitchAtomic(s, cfg, name, disk).error.None?
    ensures SwitchAtomic(s, cfg, name, disk).state.modelName == Stem(name)
  {
    var full := Join(cfg.modelsDir, name);
    BasenameOfJoin(cfg.modelsDir, name);
    BasenameOfName(name);
    assert Stem(full) == DropSuffix(Basename(full));
  }

  /**
   * As written, a file that exists but that the library cannot load leaves the
   * detector reporting a model path whose network is not the one loaded.
   */
  lemma SwitchCanBreakConsistency()
    ensures var dir := DefaultConfig.modelsDir;
      var current := Join(dir, "yolo11n.pt");
      var s := ModelState(current, Yolo(current), Stem(current));
      var disk := Disk({current, dir + "bad.pt"}, map[dir + "bad.pt" := "invalid weights"]);
      && Consistent(s)
      && Switch(s, DefaultConfig, "bad.pt", disk).error == Some(LoadFailed("invalid weights"))
      && !Consistent(Switch(s, DefaultConfig, "bad.pt", disk).state)
  {
    var dir := DefaultConfig.modelsDir;
    assert dir[|dir| - 1] == 's';
    ConcatIsNotJoin(dir, "bad.pt", "yolo11n.pt");
  }

  // ---------------------------------------------------------------------
  // Picture batches

  datatype Box = Box(x1: int, y1: int, x2: int, y2: int)

  /** One box reported by the model: corners, confidence, class id and class name. */
  datatype Detection = Detection(box: Box, conf: real, classId: int, name: string)

  /** One element of the list `model.predict` returns for a batch: the image and its boxes. */
  datatype ImageResult = ImageResult(source: string, boxes: seq<Detection>)

  /** The arguments `detect_picture` hands to `model.predict`. */
  datatype PredictCall = PredictCall(source: seq<string>, conf: real, imgsz: nat)

  /** One `cv2.imwrite`: where the plotted result goes. */
  datatype ImageWrite = ImageWrite(path: string, result: ImageResult)

  datatype PictureRun = PictureRun(outputDir: string, writes: seq<ImageWrite>)

  /** The file `save_picture_result` writes result `i` to. */
  function PictureOutputName(outputDir: string, i: nat): (p: string)
    ensures |p| > |outputDir| + 1 && p[..|outputDir|] == outputDir && p[|outputDir|] == '/'
    ensures '/' !in p[|outputDir| + 1..]
  {
    outputDir + "/detected_" + NatToString(i) + ".jpg"
  }

  /** Two results of one batch never share an output file. */
  lemma PictureOutputNamesDistinct(outputDir: string, i: nat, j: nat)
    ensures PictureOutputName(outputDir, i) == PictureOutputName(outputDir, j) <==> i == j
  {
    var p := outputDir + "/detected_";
    var a := PictureOutputName(outputDir, i);
    var b := PictureOutputName(outputDir, j);
    if a == b {
      assert a[|p|..|a| - 4] == NatToString(i);
      assert b[|p|..|b| - 4] == NatToString(j);
      NatToStringInjective(i, j);
    }
  }

  /** The writes of `save_picture_result`: result i to `detected_i.jpg`, in order. */
  function PictureWrites(outputDir: string, results: seq<ImageResult>): (w: seq<ImageWrite>)
    ensures |w| == |results|
    ensures forall i :: 0 <= i < |w| ==> w[i].path == PictureOutputName(outputDir, i) && w[i].result == results[i]
  {
    seq(|results|, i requires 0 <= i < |results| => ImageWrite(PictureOutputName(outputDir, i), results[i]))
  }

  // ---------------------------------------------------------------------
  // The per-frame video loop

  datatype Color = Color(b: int, g: int, r: int)

  /** A rectangle drawn on a frame together with its "name conf" label, both in one colour. */
  datatype Mark = Mark(detection: Detection, color: Color)

  /** A frame as handed to the video writer: its position in the input and what was drawn on it. */
  datatype Frame = Frame(index: nat, marks: seq<Mark>)

  /**
   * The input video: it cannot be opened, or it yields these frames (each as
   * the detections inference finds in it) and then either ends or yields one
   * more frame on which inference raises `inferenceFailure`.
   */
  datatype Capture = Unopenable | Opened(frames: seq<seq<Detection>>, inferenceFailure: Option<string>)

  /** What `detect_video` returns: the output path, or (when the input cannot be opened) a ValueError object. */
  datatype VideoReturn = OutputPath(path: string) | ValueErrorObject(message: string)

  datatype VideoRun = VideoRun(returned: VideoReturn, writerOpened: bool, written: seq<Frame>, frameCount: nat)

  function CannotOpenVideoMessage(videoPath: string): string {
    "无法打开视频文件:" + videoPath
  }

  function CannotCreateVideoMessage(outputPath: string): string {
    "无法创建输出视频文件:" + outputPath
  }

  // ---------------------------------------------------------------------
  // Creating the video writer

  /** The `frameSize` argument handed to `cv2.VideoWriter`: a (width, height) pair, or a Python set. */
  datatype FrameSizeArg = SizePair(width: int, height: int) | SizeSet(members: set<int>)

  /** As written, the frame size is the set `{width, height}`. */
  function FrameSizeAsWritten(width: int, height: int): FrameSizeArg {
    SizeSet({width, height})
  }

  /** As evidently intended, the frame size is the pair `(width, height)`. */
  function FrameSizeIntended(width: int, height: int): FrameSizeArg {
    SizePair(width, height)
  }

  /** How the `cv2.VideoWriter(...)` call turns out. */
  datatype WriterOutcome = WriterOpened | WriterNotOpened | WriterRaised(message: string)

  /**
   * `cv2.VideoWriter(path, fourcc, fps, frameSize)`: OpenCV's Python binding
   * reads `frameSize` as a sequence of two numbers; any other argument makes
   * the constructor raise a `cv2.error` (whose text is `rejection`). A size it
   * accepts gives a writer that `isOpened()` or not, as `opens` says.
   */
  function OpenWriter(size: FrameSizeArg, opens: bool, rejection: string): (w: WriterOutcome)
    ensures w.WriterRaised? <==> size.SizeSet?
    ensures w.WriterRaised? ==> w.message == rejection
    ensures size.SizePair? ==> (w.WriterOpened? <==> opens)
  {
    if size.SizeSet? then WriterRaised(rejection)
    else if opens then WriterOpened else WriterNotOpened
  }

  /**
   * As written, creating the writer raises for every video that opens, and
   * the set forgets which number was the width (and is a single number for
   * a square video).
   */
  lemma FrameSizeSetRejected(width: int, height: int, opens: bool, rejection: string)
    ensures OpenWriter(FrameSizeAsWritten(width, height), opens, rejection) == WriterRaised(rejection)
    ensures FrameSizeAsWritten(width, height) == FrameSizeAsWritten(height, width)
    ensures width == height ==> |FrameSizeAsWritten(width, height).members| == 1
  {
    assert {width, height} == {height, width};
  }

  /** Corrected, the writer is created from the pair, which keeps width and height apart. */
  lemma FrameSizePairAccepted(width: int, height: int, opens: bool, rejection: string)
    ensures OpenWriter(FrameSizeIntended(width, height), opens, rejection) == (if opens then WriterOpened else WriterNotOpened)
    ensures FrameSizeIntended(width, height).width == width && FrameSizeIntended(width, height).height == height
  {
  }

  /** `f"{video_name}_{model_name}_detected.mp4"`. */
  function VideoOutputName(videoPath: string, modelName: string): (name: string)
    ensures '/' !in modelName ==> '/' !in name
  {
    Stem(videoPath) + "_" + modelName + "_detected.mp4"
  }

  /** `os.path.join(output_dir, VideoOutputName(...))`. */
  function VideoOutputPath(outputDir: string, videoPath: string, modelName: string): (p: string)
    ensures |p| >= |outputDir| + |VideoOutputName(videoPath, modelName)|
    ensures p[..|outputDir|] == outputDir && p[|p| - |VideoOutputName(videoPath, modelName)|..] == VideoOutputName(videoPath, modelName)
  {
    var name := VideoOutputName(videoPath, modelName);
    assert name[0] != '/' by {
      var stem := Stem(videoPath);
      if stem != [] {
        assert name[0] == stem[0] && stem[0] in stem;
      }
    }
    Join(outputDir, name)
  }

  /** The file name of the output video is `{stem}_{model}_detected.mp4`, whatever the directory. */
  lemma VideoOutputBasename(outputDir: string, videoPath: string, modelName: string)
    requires '/' !in modelName
    ensures Basename(VideoOutputPath(outputDir, videoPath, modelName)) == VideoOutputName(videoPath, modelName)
  {
    BasenameOfJoin(outputDir, VideoOutputName(videoPath, modelName));
  }

  /** The boxes at or above the threshold, in order. */
  function Passing(dets: seq<Detection>, thr: real): (p: seq<Detection>)
    ensures forall d :: d in p ==> d in dets && d.conf >= thr
    ensures forall d :: d in dets && d.conf >= thr ==> d in p
    ensures |p| <= |dets|
  {
    if dets == [] then []
    else (if dets[0].conf >= thr then [dets[0]] else []) + Passing(dets[1..], thr)
  }

  function MarkedDetections(marks: seq<Mark>): seq<Detection> {
    if marks == [] then [] else [marks[0].detection] + MarkedDetections(marks[1..])
  }

  function ClassIds(dets: seq<Detection>): seq<int> {
    if dets == [] then [] else [dets[0].classId] + ClassIds(dets[1..])
  }

  /** No entry of the older colour table is lost or overwritten in the newer one. */
  predicate Extends(older: map<int, Color>, newer: map<int, Color>) {
    forall k :: k in older ==> k in newer && newer[k] == older[k]
  }

  /** Every mark carries the colour the table holds for its class. */
  predicate ColoredBy(marks: seq<Mark>, colors: map<int, Color>) {
    forall m :: m in marks ==> m.detection.classId in colors && colors[m.detection.classId] == m.color
  }

  /** Proof helper: marks coloured by a table stay coloured by any table that extends it. */
  lemma ColoredByGrows(marks: seq<Mark>, older: map<int, Color>, newer: map<int, Color>)
    requires ColoredBy(marks, older) && Extends(older, newer)
    ensures ColoredBy(marks, newer)
  {
  }

  datatype Drawn = Drawn(marks: seq<Mark>, colors: map<int, Color>)

  /**
   * The boxes of one frame: those at or above the threshold are drawn, in
   * order; a class not yet in the table gets a fresh colour from `draw`.
   */
  function AnnotateBoxes(dets: seq<Detection>, thr: real, colors: map<int, Color>, draw: nat -> Color): Drawn
    decreases |dets|
  {
    if dets == [] then Drawn([], colors)
    else
      var d := dets[0];
      if d.conf >= thr then
        var table := if d.classId in colors then colors else colors[d.classId := draw(|colors|)];
        var rest := AnnotateBoxes(dets[1..], thr, table, draw);
        Drawn([Mark(d, table[d.classId])] + rest.marks, rest.colors)
      else
        AnnotateBoxes(dets[1..], thr, colors, draw)
  }

  /**
   * Drawing one frame: exactly the boxes at or above the threshold are
   * drawn, in order; colours already in the table are never replaced; each
   * drawn box has its class's colour in the resulting table; the table gains
   * exactly the classes of the drawn boxes.
   */
  lemma {:induction false} AnnotateBoxesSound(dets: seq<Detection>, thr: real, colors: map<int, Color>, draw: nat -> Color)
    ensures var r := AnnotateBoxes(dets, thr, colors, draw);
      && MarkedDetections(r.marks) == Passing(dets, thr)
      && Extends(colors, r.colors)
      && ColoredBy(r.marks, r.colors)
      && (forall k :: k in r.colors <==> k in colors || k in ClassIds(Passing(dets, thr)))
    decreases |dets|
  {
    if dets != [] {
      var d := dets[0];
      if d.conf >= thr {
        var table := if d.classId in colors then colors else colors[d.classId := draw(|colors|)];
        AnnotateBoxesSound(dets[1..], thr, table, draw);
        var rest := AnnotateBoxes(dets[1..], thr, table, draw);
        var m := Mark(d, table[d.classId]);
        assert ([m] + rest.marks)[1..] == rest.marks;
        assert Passing(dets, thr) == [d] + Passing(dets[1..], thr);
        assert ([d] + Passing(dets[1..], thr))[1..] == Passing(dets[1..], thr);
      } else {
        AnnotateBoxesSound(dets[1..], thr, colors, draw);
        assert Passing(dets, thr) == Passing(dets[1..], thr);
      }
    }
  }

  datatype Run = Run(written: seq<Frame>, colors: map<int, Color>)

  /** The frames of one run, numbered from `first`, with one colour table threaded through them. */
  function AnnotateFrames(frames: seq<seq<Detection>>, first: nat, thr: real, colors: map<int, Color>, draw: nat -> Color): (r: Run)
    ensures |r.written| == |frames|
    decreases |frames|
  {
    if frames == [] then Run([], colors)
    else
      var drawn := AnnotateBoxes(frames[0], thr, colors, draw);
      var rest := AnnotateFrames(frames[1..], first + 1, thr, drawn.colors, draw);
      Run([Frame(first, drawn.marks)] + rest.written, rest.colors)
  }

  /**
   * A whole run: each frame is written once, in order, with exactly its
   * passing boxes drawn; the colour table only grows; and every box drawn in
   * any frame has the colour the final table gives its class.
   */
  lemma {:induction false} AnnotateFramesSound(frames: seq<seq<Detection>>, first: nat, thr: real, colors: map<int, Color>, draw: nat -> Color)
    ensures var r := AnnotateFrames(frames, first, thr, colors, draw);
      && (forall i :: 0 <= i < |frames| ==>
            r.written[i].index == first + i && MarkedDetections(r.written[i].marks) == Passing(frames[i], thr))
      && Extends(colors, r.colors)
      && (forall i :: 0 <= i < |frames| ==> ColoredBy(r.written[i].marks, r.colors))
    decreases |frames|
  {
    if frames != [] {
      var drawn := AnnotateBoxes(frames[0], thr, colors, draw);
      AnnotateBoxesSound(frames[0], thr, colors, draw);
      AnnotateFramesSound(frames[1..], first + 1, thr, drawn.colors, draw);
      var rest := AnnotateFrames(frames[1..], first + 1, thr, drawn.colors, draw);
      var r := AnnotateFrames(frames, first, thr, colors, draw);
      assert r.written == [Frame(first, drawn.marks)] + rest.written && r.colors == rest.colors;
      ColoredByGrows(drawn.marks, drawn.colors, rest.colors);
      forall i | 0 <= i < |frames|
        ensures r.written[i].index == first + i && MarkedDetections(r.written[i].marks) == Passing(frames[i], thr)
        ensures ColoredBy(r.written[i].marks, r.colors)
      {
        if i > 0 {
          assert r.written[i] == rest.written[i - 1] && frames[i] == frames[1..][i - 1];
        }
      }
    }
  }

  /**
   * The inner loop over the boxes of one frame, drawing in place into the
   * marks of the frame and the run's colour table.
   */
  method AnnotateFrame(dets: seq<Detection>, thr: real, colors0: map<int, Color>, draw: nat -> Color)
    returns (marks: seq<Mark>, colors: map<int, Color>)
    ensures Drawn(marks, colors) == AnnotateBoxes(dets, thr, colors0, draw)
  {
    marks, colors := [], colors0;
    for k := 0 to |dets|
      invariant var rest := AnnotateBoxes(dets[k..], thr, colors, draw);
        AnnotateBoxes(dets, thr, colors0, draw) == Drawn(marks + rest.marks, rest.colors)
    {
      var d := dets[k];
      assert dets[k..][1..] == dets[k + 1..];
      if d.conf >= thr {
        if d.classId !in colors {
          colors := colors[d.classId := draw(|colors|)];
        }
        var color := colors[d.classId];
        marks := marks + [Mark(d, color)];
      }
    }
    assert dets[|dets|..] == [];
  }

  /**
   * The `while cap.isOpened()` loop of `detect_video`: read until the first
   * failed read, count each frame read, annotate it and write it, with a
   * colour table that starts empty. When inference raises on a frame, the
   * loop stops there with that error, after the earlier frames were written.
   */
  method FrameLoop(frames: seq<seq<Detection>>, failure: Option<string>, thr: real, draw: nat -> Color)
    returns (written: seq<Frame>, frameCount: nat, raised: Option<string>)
    ensures raised == failure
    ensures frameCount == |frames| + (if failure.Some? then 1 else 0)
    ensures written == AnnotateFrames(frames, 0, thr, map[], draw).written
  {
    var colors: map<int, Color> := map[];
    written, frameCount, raised := [], 0, None;
    ghost var whole := AnnotateFrames(frames, 0, thr, map[], draw);
    while true
      invariant 0 <= frameCount <= |frames|
      invariant raised.None?
      invariant var rest := AnnotateFrames(frames[frameCount..], frameCount, thr, colors, draw);
        whole.written == written + rest.written && whole.colors == rest.colors
      decreases |frames| - frameCount
    {
      if frameCount == |frames| {
        if failure.Some? {
          // the frame is read and counted, then `model.predict` raises
          assert frames[frameCount..] == [];
          frameCount, raised := frameCount + 1, failure;
          return;
        }
        break;
      }
      var dets := frames[frameCount];
      assert frames[frameCount..][1..] == frames[frameCount + 1..];
      frameCount := frameCount + 1;
      var marks;
      marks, colors := AnnotateFrame(dets, thr, colors, draw);
      written := written + [Frame(frameCount - 1, marks)];
    }
    assert frames[frameCount..] == [];
  }

  // ---------------------------------------------------------------------
  // The detector object

  class Detector {
    var config: Config
    var modelPath: string
    var device: Device
    var model: Model
    var modelName: string
    var results: seq<ImageResult>

    function State(): ModelState
      reads this
    {
      ModelState(modelPath, model, modelName)
    }

    /** The field assignments of `__init__` before `load_model` runs. */
    constructor Init(modelPath: string, config: Option<Config>, cudaAvailable: bool)
      ensures this.config == (if config.Some? then config.value else DefaultConfig)
      ensures this.modelPath == modelPath && model == Unloaded && modelName == ""
      ensures device == (if cudaAvailable then Cuda else Cpu)
      ensures results == []
    {
      this.config := if config.Some? then config.value else DefaultConfig;
      this.modelPath := modelPath;
      device := if cudaAvailable then Cuda else Cpu;
      model := Unloaded;
      modelName := "";
      results := [];
    }

    /** `Detector(model_path, config)`: construction fails exactly when the initial model cannot be loaded. */
    static method Create(modelPath: string, config: Option<Config>, cudaAvailable: bool, disk: Disk)
      returns (r: Result<Detector, DetectorError>)
      ensures r.Err? <==> !(modelPath in disk.files && modelPath !in disk.broken)
      ensures r.Err? ==> Some(r.error) == Load(ModelState(modelPath, Unloaded, ""), disk).error
      ensures r.Ok? ==> fresh(r.value) && r.value.modelPath == modelPath && Consistent(r.value.State())
      ensures r.Ok? ==> r.value.results == [] && r.value.config == (if config.Some? then config.value else DefaultConfig)
    {
      var d := new Detector.Init(modelPath, config, cudaAvailable);
      var err := d.LoadModel(disk);
      if err.Some? {
        return Err(err.value);
      }
      return Ok(d);
    }

    method LoadModel(disk: Disk) returns (err: Option<DetectorError>)
      modifies this`model, this`modelName
      ensures Step(State(), err) == Load(old(State()), disk)
    {
      if modelPath !in disk.files {
        return Some(FileNotFound(ModelNotFoundMessage(modelPath)));
      }
      if modelPath in disk.broken {
        return Some(LoadFailed(disk.broken[modelPath]));
      }
      model := Yolo(modelPath);
      modelName := Stem(modelPath);
      return None;
    }

    /** `change_model(new_model_path)` as written. */
    method ChangeModel(name: string, disk: Disk) returns (err: Option<DetectorError>)
      modifies this`modelPath, this`model, this`modelName
      ensures Step(State(), err) == Switch(old(State()), config, name, disk)
    {
      var fullPath := config.modelsDir + name;
      if fullPath !in disk.files {
        return Some(FileNotFound(ModelNotFoundMessage(fullPath)));
      }
      modelPath := fullPath;
      err := LoadModel(disk);
    }

    /**
     * The corrected load: check and load the model at `path` first, and only
     * then assign the path, the network and the name together.
     */
    method LoadInto(path: string, disk: Disk) returns (err: Option<DetectorError>)
      modifies this`modelPath, this`model, this`modelName
      ensures var loaded := Load(old(State()).(modelPath := path), disk);
        Step(State(), err) == if loaded.error.Some? then Step(old(State()), loaded.error) else loaded
    {
      if path !in disk.files {
        return Some(FileNotFound(ModelNotFoundMessage(path)));
      }
      if path in disk.broken {
        return Some(LoadFailed(disk.broken[path]));
      }
      modelPath, model, modelName := path, Yolo(path), Stem(path);
      return None;
    }

    /** `change_model` corrected: join the path, and assign nothing until the new model has loaded. */
    method ChangeModelAtomic(name: string, disk: Disk) returns (err: Option<DetectorError>)
      modifies this`modelPath, this`model, this`modelName
      ensures Step(State(), err) == SwitchAtomic(old(State()), config, name, disk)
    {
      var fullPath := Join(config.modelsDir, name);
      err := LoadInto(fullPath, disk);
    }

    /**
     * `detect_picture`: default the parameters, run inference on the whole
     * batch (an inference error propagates and leaves `results` as it was),
     * keep the results and save them.
     */
    method DetectPicture(imagePaths: seq<string>, conf: Option<real>, outputDir: Option<string>,
                         predict: PredictCall -> Result<seq<ImageResult>, string>)
      returns (r: Result<PictureRun, DetectorError>)
      modifies this`results
      ensures var thr := EffectiveThreshold(conf, config.defaultConfThreshold);
        var dir := EffectiveDir(outputDir, config.outputImageDir);
        match predict(PredictCall(imagePaths, thr, config.defaultImgsz))
        case Err(m) => r == Err(PredictFailed(m)) && results == old(results)
        case Ok(rs) => results == rs && r == Ok(PictureRun(dir, PictureWrites(dir, rs)))
    {
      var thr := EffectiveThreshold(conf, config.defaultConfThreshold);
      var dir := EffectiveDir(outputDir, config.outputImageDir);
      var predicted := predict(PredictCall(imagePaths, thr, config.defaultImgsz));
      if predicted.Err? {
        return Err(PredictFailed(predicted.error));
      }
      results := predicted.value;
      var writes := SavePictureResult(dir);
      return Ok(PictureRun(dir, writes));
    }

    /** `save_picture_result`: result i of the last batch goes to `output_dir/detected_i.jpg`. */
    method SavePictureResult(outputDir: string) returns (writes: seq<ImageWrite>)
      ensures writes == PictureWrites(outputDir, results)
      ensures forall i, j :: 0 <= i < j < |writes| ==> writes[i].path != writes[j].path
    {
      writes := [];
      for i := 0 to |results|
        invariant |writes| == i
        invariant forall k :: 0 <= k < i ==> writes[k] == ImageWrite(PictureOutputName(outputDir, k), results[k])
      {
        writes := writes + [ImageWrite(PictureOutputName(outputDir, i), results[i])];
      }
      forall i, j | 0 <= i < j < |writes| ensures writes[i].path != writes[j].path {
        PictureOutputNamesDistinct(outputDir, i, j);
      }
    }

    /**
     * `detect_video`. An input that cannot be opened gives back a ValueError
     * object (it is returned, not raised) and no writer. `writer` is how the
     * `cv2.VideoWriter` call turns out (`OpenWriter`): its constructor may
     * raise, and a writer that is not opened makes `detect_video` raise.
     * Otherwise every frame read is annotated and written once, in order,
     * with a colour table that starts empty for this call, unless inference
     * raises on a frame.
     */
    method DetectVideo(videoPath: string, conf: Option<real>, outputDir: Option<string>,
                       capture: Capture, writer: WriterOutcome, draw: nat -> Color)
      returns (r: Result<VideoRun, DetectorError>)
      ensures capture.Unopenable? ==>
        r == Ok(VideoRun(ValueErrorObject(CannotOpenVideoMessage(videoPath)), false, [], 0))
      ensures capture.Opened? && writer.WriterRaised? ==> r == Err(VideoWriterError(writer.message))
      ensures var outputPath := VideoOutputPath(EffectiveDir(outputDir, config.outputVideoDir), videoPath, modelName);
        capture.Opened? && writer.WriterNotOpened? ==> r == Err(WriterFailed(CannotCreateVideoMessage(outputPath)))
      ensures capture.Opened? && writer.WriterOpened? && capture.inferenceFailure.Some? ==>
        r == Err(PredictFailed(capture.inferenceFailure.value))
      ensures var outputPath := VideoOutputPath(EffectiveDir(outputDir, config.outputVideoDir), videoPath, modelName);
        var thr := EffectiveThreshold(conf, config.defaultConfThreshold);
        capture.Opened? && writer.WriterOpened? && capture.inferenceFailure.None? ==>
          && r.Ok? && r.value.returned == OutputPath(outputPath) && r.value.writerOpened
          && r.value.frameCount == |capture.frames|
          && r.value.written == AnnotateFrames(capture.frames, 0, thr, map[], draw).written
      ensures r.Ok? ==>
        forall i, j, m, n ::
          (0 <= i < |r.value.written| && 0 <= j < |r.value.written| &&
           m in r.value.written[i].marks && n in r.value.written[j].marks &&
           m.detection.classId == n.detection.classId) ==> m.color == n.color
    {
      var thr := EffectiveThreshold(conf, config.defaultConfThreshold);
      var dir := EffectiveDir(outputDir, config.outputVideoDir);
      if capture.Unopenable? {
        return Ok(VideoRun(ValueErrorObject(CannotOpenVideoMessage(videoPath)), false, [], 0));
      }
      var outputPath := VideoOutputPath(dir, videoPath, modelName);
      if writer.WriterRaised? {
        return Err(VideoWriterError(writer.message));
      }
      if writer.WriterNotOpened? {
        return Err(WriterFailed(CannotCreateVideoMessage(outputPath)));
      }
      var written, frameCount, raised := FrameLoop(capture.frames, capture.inferenceFailure, thr, draw);
      if raised.Some? {
        return Err(PredictFailed(raised.value));
      }
      AnnotateFramesSound(capture.frames, 0, thr, map[], draw);
      r := Ok(VideoRun(OutputPath(outputPath), true, written, frameCount));
    }
  }
}
