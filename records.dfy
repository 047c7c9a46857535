/**
 * The persisted rows and the API schemas around them:
 * `database/models.py` (the `Users` table), the `detection_history` table
 * as the migrations create it, and `schemas/detection.py`.
 * Timestamps are integers (seconds); processing times and thresholds are reals.
 */
module Records {
  import opened Wrappers
  import opened PyText

  // ---------------------------------------------------------------------
  // Users

  /** A row of the `users` table. */
  datatype UserRow = UserRow(
    id: int,
    username: string,
    fullName: Option<string>,
    password: Option<string>,
    createdAt: int,
    modifiedAt: int)

  const UsernameMaxLength := 20
  const FullNameMaxLength := 50
  const PasswordMaxLength := 128

  /** The `max_length` of every character column holds (the column limits of the `Users` model). */
  predicate FitsUserColumns(username: string, fullName: Option<string>, password: Option<string>) {
    && |username| <= UsernameMaxLength
    && (fullName.Some? ==> |fullName.value| <= FullNameMaxLength)
    && (password.Some? ==> |password.value| <= PasswordMaxLength)
  }

  /** Python's f-string rendering of an optional string: None prints as "None". */
  function OptionalText(s: Option<string>): string {
    match s
    case None => "None"
    case Some(v) => v
  }

  /**
   * `Users.__str__`: "{username}, {full_name} on {created_at}", where the
   * rendering of the timestamp is supplied by `showTime`.
   */
  function UserText(u: UserRow, showTime: int -> string): (text: string)
    ensures |text| == |u.username| + 2 + |OptionalText(u.fullName)| + 4 + |showTime(u.createdAt)|
    ensures text[..|u.username|] == u.username
    ensures text[|u.username|..|u.username| + 2] == ", "
    ensures text[|u.username| + 2..|u.username| + 2 + |OptionalText(u.fullName)|] == OptionalText(u.fullName)
    ensures EndsWith(text, " on " + showTime(u.createdAt))
  {
    u.username + ", " + OptionalText(u.fullName) + " on " + showTime(u.createdAt)
  }

  // ---------------------------------------------------------------------
  // Detection history

  /** `DetectionType`, stored as "image" or "video". */
  datatype DetectionType = Image | Video

  /** `DetectionHistoryBase`: the fields a client supplies for one detection request. */
  datatype DetectionHistoryBase = DetectionHistoryBase(
    detectionType: DetectionType,
    modelUsed: string,
    fileCount: int,
    confThreshold: real,
    detectedObjectsCount: Option<int>,
    processingTime: Option<real>,
    fileNames: seq<string>,
    outputFiles: seq<string>)

  /** A `DetectionHistoryBase` given only its required fields; the others take their declared defaults. */
  function DetectionHistoryWithDefaults(detectionType: DetectionType, modelUsed: string, fileCount: int, confThreshold: real)
    : (b: DetectionHistoryBase)
    ensures b.detectionType == detectionType && b.modelUsed == modelUsed
    ensures b.fileCount == fileCount && b.confThreshold == confThreshold
    ensures b.detectedObjectsCount == Some(0) && b.processingTime == None
    ensures b.fileNames == [] && b.outputFiles == []
  {
    DetectionHistoryBase(detectionType, modelUsed, fileCount, confThreshold, Some(0), None, [], [])
  }

  /** `DetectionHistoryCreate`: the base fields plus `user_id`. */
  datatype DetectionHistoryCreate = DetectionHistoryCreate(base: DetectionHistoryBase, userId: int)

  /** `DetectionHistoryOut`: the base fields plus `id`, `user_id` and `created_at`. */
  datatype DetectionHistoryOut = DetectionHistoryOut(base: DetectionHistoryBase, id: int, userId: int, createdAt: int)

  /** A row of the `detection_history` table (after the column renames of the third migration). */
  datatype DetectionRecord = DetectionRecord(
    id: int,
    userId: int,
    detectionType: DetectionType,
    modelUsed: string,
    fileCount: int,
    confThreshold: real,
    detectedObjectsCount: int,
    processingTime: Option<real>,
    fileNames: seq<string>,
    outputFiles: seq<string>,
    createdAt: int)

  const ModelUsedMaxLength := 50

  /** The row `DetectionHistory.create` stores for a request whose object count is present. */
  function RecordOf(id: int, userId: int, data: DetectionHistoryBase, createdAt: int): DetectionRecord
    requires data.detectedObjectsCount.Some?
  {
    DetectionRecord(id, userId, data.detectionType, data.modelUsed, data.fileCount, data.confThreshold,
      data.detectedObjectsCount.value, data.processingTime, data.fileNames, data.outputFiles, createdAt)
  }

  /** The `from_attributes` conversion of a stored row to `DetectionHistoryOut`. */
  function ToOut(r: DetectionRecord): DetectionHistoryOut {
    DetectionHistoryOut(
      DetectionHistoryBase(r.detectionType, r.modelUsed, r.fileCount, r.confThreshold,
        Some(r.detectedObjectsCount), r.processingTime, r.fileNames, r.outputFiles),
      r.id, r.userId, r.createdAt)
  }

  /** What is stored is what is read back: the output schema returns the submitted fields unchanged. */
  lemma StoredRecordReadsBack(id: int, userId: int, data: DetectionHistoryBase, createdAt: int)
    requires data.detectedObjectsCount.Some?
    ensures ToOut(RecordOf(id, userId, data, createdAt)) == DetectionHistoryOut(data, id, userId, createdAt)
  {
  }

  /** `UserStatsOut`. */
  datatype UserStatsOut = UserStatsOut(
    imagesProcessed: int,
    videosProcessed: int,
    totalDetections: int,
    totalProcessingTime: real,
    lastDetection: Option<int>)

  /** `UserStatsOut()` with every field at its declared default. */
  const DefaultUserStats := UserStatsOut(0, 0, 0, 0.0, None)
}
