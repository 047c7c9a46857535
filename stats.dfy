/**
 * The reading operations of `crud/detection.py`: `get_user_stats` and
 * `get_all_user_detection_history`. The aggregates are defined over the
 * history table in insertion order, each by recursion on its last row.
 */
module Stats {
  import opened Wrappers
  import opened Records
  import opened Store

  // ---------------------------------------------------------------------
  // Filters and aggregates

  /** Whether a row answers a query for `userId` and, when given, one detection type. */
  predicate Matches(x: DetectionRecord, userId: int, kind: Option<DetectionType>) {
    x.userId == userId && (kind.None? || x.detectionType == kind.value)
  }

  /** `DetectionHistory.filter(user_id=…[, detection_type=…])`, in table order. */
  function Matching(h: seq<DetectionRecord>, userId: int, kind: Option<DetectionType>): (r: seq<DetectionRecord>)
    ensures forall x :: x in r <==> x in h && Matches(x, userId, kind)
    ensures r == [] <==> forall x :: x in h ==> !Matches(x, userId, kind)
    ensures |r| <= |h|
  {
    if |h| == 0 then []
    else
      assert h == h[..|h| - 1] + [h[|h| - 1]];
      Matching(h[..|h| - 1], userId, kind) + (if Matches(h[|h| - 1], userId, kind) then [h[|h| - 1]] else [])
  }

  /** `.filter(user_id=…, detection_type=…).count()`. */
  function CountOfType(h: seq<DetectionRecord>, userId: int, kind: DetectionType): (n: nat)
    ensures n <= |h|
    ensures n == 0 <== forall x :: x in h ==> !Matches(x, userId, Some(kind))
  {
    if |h| == 0 then 0
    else CountOfType(h[..|h| - 1], userId, kind) + (if Matches(h[|h| - 1], userId, Some(kind)) then 1 else 0)
  }

  /** The sum of `detected_objects_count` over a user's rows. */
  function TotalDetections(h: seq<DetectionRecord>, userId: int): (total: int)
    ensures (forall x :: x in h ==> x.detectedObjectsCount >= 0) ==> total >= 0
    ensures (forall x :: x in h ==> x.userId != userId) ==> total == 0
  {
    if |h| == 0 then 0
    else TotalDetections(h[..|h| - 1], userId) + (if h[|h| - 1].userId == userId then h[|h| - 1].detectedObjectsCount else 0)
  }

  /** The sum of the non-null `processing_time` values over a user's rows. */
  function TotalProcessingTime(h: seq<DetectionRecord>, userId: int): (total: real)
    ensures (forall x :: x in h && x.processingTime.Some? ==> x.processingTime.value >= 0.0) ==> total >= 0.0
    ensures (forall x :: x in h ==> x.userId != userId) ==> total == 0.0
  {
    if |h| == 0 then 0.0
    else
      var x := h[|h| - 1];
      TotalProcessingTime(h[..|h| - 1], userId) + (if x.userId == userId && x.processingTime.Some? then x.processingTime.value else 0.0)
  }

  /** `created_at` of the first row of `order_by("-created_at")`: the newest timestamp among a user's rows. */
  function LastDetection(h: seq<DetectionRecord>, userId: int): (r: Option<int>)
    ensures r.None? <==> forall x :: x in h ==> x.userId != userId
    ensures r.Some? ==> exists x :: x in h && x.userId == userId && x.createdAt == r.value
    ensures r.Some? ==> forall x :: x in h && x.userId == userId ==> x.createdAt <= r.value
  {
    if |h| == 0 then None
    else
      assert h == h[..|h| - 1] + [h[|h| - 1]];
      var x := h[|h| - 1];
      var before := LastDetection(h[..|h| - 1], userId);
      if x.userId != userId then before
      else if before.Some? && before.value >= x.createdAt then before
      else Some(x.createdAt)
  }

  // ---------------------------------------------------------------------
  // The aggregates as the source states them: over the filtered rows

  /** `sum(record.detected_objects_count for record in rows)`. */
  function SumObjects(rows: seq<DetectionRecord>): int {
    if |rows| == 0 then 0 else SumObjects(rows[..|rows| - 1]) + rows[|rows| - 1].detectedObjectsCount
  }

  /** `.filter(processing_time__isnull=False)`: the rows that have a processing time, in order. */
  function Timed(rows: seq<DetectionRecord>): (r: seq<DetectionRecord>)
    ensures forall x :: x in r <==> x in rows && x.processingTime.Some?
  {
    if |rows| == 0 then []
    else
      assert rows == rows[..|rows| - 1] + [rows[|rows| - 1]];
      Timed(rows[..|rows| - 1]) + (if rows[|rows| - 1].processingTime.Some? then [rows[|rows| - 1]] else [])
  }

  /** `sum(record.processing_time for record in rows)` over rows that all have one. */
  function SumTimes(rows: seq<DetectionRecord>): real
    requires forall x :: x in rows ==> x.processingTime.Some?
  {
    if |rows| == 0 then 0.0
    else
      assert forall x :: x in rows[..|rows| - 1] ==> x in rows;
      SumTimes(rows[..|rows| - 1]) + rows[|rows| - 1].processingTime.value
  }

  /** The per-type count is the number of the user's rows of that type. */
  lemma {:induction false} CountOfTypeIsMatching(h: seq<DetectionRecord>, userId: int, kind: DetectionType)
    ensures CountOfType(h, userId, kind) == |Matching(h, userId, Some(kind))|
  {
    if |h| > 0 {
      CountOfTypeIsMatching(h[..|h| - 1], userId, kind);
    }
  }

  /** The running object total is the sum over the user's rows. */
  lemma {:induction false} TotalDetectionsIsSum(h: seq<DetectionRecord>, userId: int)
    ensures TotalDetections(h, userId) == SumObjects(Matching(h, userId, None))
  {
    if |h| > 0 {
      var x := h[|h| - 1];
      var before := Matching(h[..|h| - 1], userId, None);
      TotalDetectionsIsSum(h[..|h| - 1], userId);
      if x.userId == userId {
        assert (before + [x])[..|before + [x]| - 1] == before;
      } else {
        assert before + [] == before;
      }
    }
  }

  lemma TimedAppend(rows: seq<DetectionRecord>, x: DetectionRecord)
    ensures Timed(rows + [x]) == Timed(rows) + (if x.processingTime.Some? then [x] else [])
  {
    assert (rows + [x])[..|rows + [x]| - 1] == rows;
  }

  lemma SumTimesAppend(rows: seq<DetectionRecord>, x: DetectionRecord)
    requires forall y :: y in rows ==> y.processingTime.Some?
    requires x.processingTime.Some?
    ensures SumTimes(rows + [x]) == SumTimes(rows) + x.processingTime.value
  {
    assert (rows + [x])[..|rows + [x]| - 1] == rows;
  }

  /** The running time total is the sum over the user's rows that have a processing time. */
  lemma {:induction false} TotalProcessingTimeIsSum(h: seq<DetectionRecord>, userId: int)
    ensures TotalProcessingTime(h, userId) == SumTimes(Timed(Matching(h, userId, None)))
  {
    if |h| > 0 {
      var init, x := h[..|h| - 1], h[|h| - 1];
      var before := Matching(init, userId, None);
      TotalProcessingTimeIsSum(init, userId);
      if x.userId == userId {
        assert Matching(h, userId, None) == before + [x];
        TimedAppend(before, x);
        if x.processingTime.Some? {
          assert TotalProcessingTime(h, userId) == TotalProcessingTime(init, userId) + x.processingTime.value;
          SumTimesAppend(Timed(before), x);
        } else {
          assert TotalProcessingTime(h, userId) == TotalProcessingTime(init, userId);
          assert Timed(before) + [] == Timed(before);
        }
      } else {
        assert Matching(h, userId, None) == before + [];
        assert TotalProcessingTime(h, userId) == TotalProcessingTime(init, userId);
        assert before + [] == before;
      }
    }
  }

  /** Every row of a user is either an image or a video detection. */
  lemma {:induction false} ImagesPlusVideos(h: seq<DetectionRecord>, userId: int)
    ensures CountOfType(h, userId, Image) + CountOfType(h, userId, Video) == |Matching(h, userId, None)|
  {
    if |h| > 0 {
      ImagesPlusVideos(h[..|h| - 1], userId);
    }
  }

  // ---------------------------------------------------------------------
  // get_user_stats

  /**
   * `get_user_stats`: the user must exist; the counts are the user's image
   * and video rows, the totals sum the user's rows (the time over those that
   * have one), and the last detection is the time of the user's newest row.
   */
  function UserStats(t: Tables, userId: int): (r: Result<UserStatsOut, CrudError>)
    ensures r.Err? <==> FindById(t.users, userId).None?
    ensures r.Err? ==> r.error == DoesNotExist
    ensures r.Ok? ==>
      && r.value.imagesProcessed == |Matching(t.history, userId, Some(Image))|
      && r.value.videosProcessed == |Matching(t.history, userId, Some(Video))|
      && r.value.imagesProcessed + r.value.videosProcessed == |Matching(t.history, userId, None)|
    ensures r.Ok? ==> r.value.totalDetections == SumObjects(Matching(t.history, userId, None))
    ensures r.Ok? ==> r.value.totalProcessingTime == SumTimes(Timed(Matching(t.history, userId, None)))
    ensures r.Ok? ==> (r.value.lastDetection.None? <==> Matching(t.history, userId, None) == [])
    ensures r.Ok? && r.value.lastDetection.Some? ==>
      exists x :: x in t.history && x.userId == userId && x.createdAt == r.value.lastDetection.value
    ensures r.Ok? && r.value.lastDetection.Some? ==>
      forall x :: x in t.history && x.userId == userId ==> x.createdAt <= r.value.lastDetection.value
  {
    if FindById(t.users, userId).None? then Err(DoesNotExist)
    else
      ImagesPlusVideos(t.history, userId);
      CountOfTypeIsMatching(t.history, userId, Image);
      CountOfTypeIsMatching(t.history, userId, Video);
      TotalDetectionsIsSum(t.history, userId);
      TotalProcessingTimeIsSum(t.history, userId);
      var h := t.history;
      var last := LastDetection(h, userId);
      Ok(UserStatsOut(CountOfType(h, userId, Image), CountOfType(h, userId, Video),
        TotalDetections(h, userId), TotalProcessingTime(h, userId), last))
  }

  /** A registered user with no history gets `UserStatsOut()`: every field at its default. */
  lemma NewUserHasDefaultStats(t: Tables, userId: int)
    requires FindById(t.users, userId).Some?
    requires forall x :: x in t.history ==> x.userId != userId
    ensures UserStats(t, userId) == Ok(DefaultUserStats)
  {
    var h := t.history;
    ImagesPlusVideos(h, userId);
    NoRowsNoTotals(h, userId);
  }

  lemma {:induction false} NoRowsNoTotals(h: seq<DetectionRecord>, userId: int)
    requires forall x :: x in h ==> x.userId != userId
    ensures TotalDetections(h, userId) == 0 && TotalProcessingTime(h, userId) == 0.0
  {
    if |h| > 0 {
      assert forall x :: x in h[..|h| - 1] ==> x in h;
      NoRowsNoTotals(h[..|h| - 1], userId);
    }
  }

  /**
   * Recording a detection for a user adds it to that user's statistics:
   * one more image or video, its objects and its processing time added,
   * and the last detection at least as new as the record.
   */
  lemma RecordUpdatesStats(t: Tables, userId: int, data: DetectionHistoryCreate, now: int)
    requires CreateDetectionRecordStep(t, userId, data, now).result.Ok?
    ensures var before := UserStats(t, userId).value;
      var after := UserStats(CreateDetectionRecordStep(t, userId, data, now).tables, userId).value;
      var b := data.base;
      && after.imagesProcessed == before.imagesProcessed + (if b.detectionType == Image then 1 else 0)
      && after.videosProcessed == before.videosProcessed + (if b.detectionType == Video then 1 else 0)
      && after.totalDetections == before.totalDetections + b.detectedObjectsCount.value
      && after.totalProcessingTime == before.totalProcessingTime + (if b.processingTime.Some? then b.processingTime.value else 0.0)
      && after.lastDetection.Some? && after.lastDetection.value >= now
  {
    var o := CreateDetectionRecordStep(t, userId, data, now);
    var h := o.tables.history;
    assert h[..|h| - 1] == t.history;
    assert o.tables.users == t.users;
  }

  /** Recording a detection for one user leaves every other user's statistics as they were. */
  lemma RecordLeavesOthersStats(t: Tables, userId: int, data: DetectionHistoryCreate, now: int, other: int)
    requires other != userId
    ensures UserStats(CreateDetectionRecordStep(t, userId, data, now).tables, other) == UserStats(t, other)
  {
    var o := CreateDetectionRecordStep(t, userId, data, now);
    if o.result.Ok? {
      var h := o.tables.history;
      assert h[..|h| - 1] == t.history;
    }
  }

  /** Once a user has deleted their account, asking for its statistics fails. */
  lemma NoStatsAfterDelete(t: Tables, userId: int, current: UserOut)
    requires Valid(t)
    requires DeleteUserStep(t, userId, current).result.Ok?
    ensures UserStats(DeleteUserStep(t, userId, current).tables, userId) == Err(DoesNotExist)
  {
    DeletedUserIsGone(t, userId, current);
  }

  // ---------------------------------------------------------------------
  // get_all_user_detection_history

  /** The order `order_by("-created_at")` asks for. */
  predicate NewestFirst(s: seq<DetectionRecord>) {
    forall i, j :: 0 <= i < j < |s| ==> s[i].createdAt >= s[j].createdAt
  }

  /** Places `x` into a newest-first sequence after every row at least as new. */
  function Insert(x: DetectionRecord, s: seq<DetectionRecord>): (r: seq<DetectionRecord>)
    ensures |r| == |s| + 1
  {
    if |s| == 0 then [x]
    else if s[0].createdAt >= x.createdAt then [s[0]] + Insert(x, s[1..])
    else [x] + s
  }

  /** Sorts newest first; rows with equal timestamps keep their table order. */
  function SortNewestFirst(s: seq<DetectionRecord>): (r: seq<DetectionRecord>)
    ensures |r| == |s|
  {
    if |s| == 0 then []
    else Insert(s[|s| - 1], SortNewestFirst(s[..|s| - 1]))
  }

  /** Inserting adds exactly the one row. */
  lemma {:induction false} InsertPermutes(x: DetectionRecord, s: seq<DetectionRecord>)
    ensures multiset(Insert(x, s)) == multiset(s) + multiset{x}
  {
    if |s| > 0 && s[0].createdAt >= x.createdAt {
      InsertPermutes(x, s[1..]);
      assert s == [s[0]] + s[1..];
    }
  }

  /** A row at least as new as every row of a newest-first sequence can go in front. */
  lemma ConsNewestFirst(a: DetectionRecord, r: seq<DetectionRecord>)
    requires NewestFirst(r)
    requires forall j :: 0 <= j < |r| ==> a.createdAt >= r[j].createdAt
    ensures NewestFirst([a] + r)
  {
    forall i, j | 0 <= i < j < |[a] + r|
      ensures ([a] + r)[i].createdAt >= ([a] + r)[j].createdAt
    {
      if i > 0 {
        assert ([a] + r)[i] == r[i - 1] && ([a] + r)[j] == r[j - 1];
      }
    }
  }

  lemma {:induction false} InsertKeepsOrder(x: DetectionRecord, s: seq<DetectionRecord>)
    requires NewestFirst(s)
    ensures NewestFirst(Insert(x, s))
    ensures multiset(Insert(x, s)) == multiset(s) + multiset{x}
  {
    InsertPermutes(x, s);
    if |s| == 0 {
    } else if s[0].createdAt >= x.createdAt {
      var tail := s[1..];
      InsertKeepsOrder(x, tail);
      InsertPermutes(x, tail);
      var rest := Insert(x, tail);
      forall j | 0 <= j < |rest|
        ensures s[0].createdAt >= rest[j].createdAt
      {
        assert rest[j] in multiset(rest);
        if rest[j] != x {
          assert rest[j] in multiset(tail);
          var k :| 0 <= k < |tail| && tail[k] == rest[j];
          assert s[k + 1] == rest[j];
        }
      }
      ConsNewestFirst(s[0], rest);
    } else {
      ConsNewestFirst(x, s);
    }
  }

  lemma {:induction false} SortIsNewestFirst(s: seq<DetectionRecord>)
    ensures NewestFirst(SortNewestFirst(s))
    ensures multiset(SortNewestFirst(s)) == multiset(s)
  {
    if |s| > 0 {
      SortIsNewestFirst(s[..|s| - 1]);
      InsertKeepsOrder(s[|s| - 1], SortNewestFirst(s[..|s| - 1]));
      assert s == s[..|s| - 1] + [s[|s| - 1]];
    }
  }

  /**
   * `get_all_user_detection_history`: a user's rows, of one type when a type
   * is given, newest first, at most `limit` of them when `limit` is nonzero.
   * The user is not looked up: an unknown id gives an empty list.
   */
  function History(h: seq<DetectionRecord>, userId: int, limit: Option<int>, kind: Option<DetectionType>)
    : (r: Result<seq<DetectionRecord>, CrudError>)
    ensures r.Err? <==> limit.Some? && limit.value < 0
    ensures r.Ok? ==> |r.value| <= |Matching(h, userId, kind)|
    ensures r.Ok? && limit.Some? && limit.value > 0 ==> |r.value| <= limit.value
  {
    if limit.Some? && limit.value < 0 then Err(NegativeLimit)
    else
      var sorted := SortNewestFirst(Matching(h, userId, kind));
      if limit.Some? && limit.value != 0 && limit.value < |sorted| then Ok(sorted[..limit.value])
      else Ok(sorted)
  }

  /** The default query of the endpoint: at most 50 rows of any type. */
  const DefaultHistoryLimit: Option<int> := Some(50)

  /**
   * What the history query returns: newest first, only matching rows, each
   * as often as in the table, as many as the limit allows, and no matching
   * row left out that is newer than one returned.
   */
  lemma HistoryIsNewestMatching(h: seq<DetectionRecord>, userId: int, limit: Option<int>, kind: Option<DetectionType>)
    ensures History(h, userId, limit, kind).Err? <==> limit.Some? && limit.value < 0
    ensures var r := History(h, userId, limit, kind);
      var m := Matching(h, userId, kind);
      r.Ok? ==>
        && NewestFirst(r.value)
        && (forall x :: x in r.value ==> x in h && Matches(x, userId, kind))
        && multiset(r.value) <= multiset(m)
        && |r.value| == (if limit.Some? && limit.value != 0 && limit.value < |m| then limit.value else |m|)
        && (forall x, y :: x in r.value && y in m && y !in r.value ==> x.createdAt >= y.createdAt)
  {
    var m := Matching(h, userId, kind);
    var sorted := SortNewestFirst(m);
    SortIsNewestFirst(m);
    var r := History(h, userId, limit, kind);
    if r.Ok? {
      var k := |r.value|;
      assert r.value == sorted[..k];
      NewestPrefix(sorted, k);
      forall x | x in r.value
        ensures x in h && Matches(x, userId, kind)
      {
        assert x in multiset(m);
      }
    }
  }

  /** A prefix of a newest-first sequence is newest first and holds its newest elements. */
  lemma NewestPrefix(s: seq<DetectionRecord>, k: nat)
    requires NewestFirst(s) && k <= |s|
    ensures NewestFirst(s[..k])
    ensures multiset(s[..k]) <= multiset(s)
    ensures forall x :: x in s[..k] ==> x in multiset(s)
    ensures forall x, y :: x in s[..k] && y in multiset(s) && y !in s[..k] ==> x.createdAt >= y.createdAt
  {
    assert s == s[..k] + s[k..];
    assert multiset(s) == multiset(s[..k]) + multiset(s[k..]);
    forall x, y | x in s[..k] && y in multiset(s) && y !in s[..k]
      ensures x.createdAt >= y.createdAt
    {
      var i :| 0 <= i < k && s[i] == x;
      var j :| 0 <= j < |s| && s[j] == y;
    }
  }
}
