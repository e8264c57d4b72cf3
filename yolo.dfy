/**
 * Enrichment stage: obtain a store connection with bounded retries, derive the
 * work queue of media paths that have no detection row yet (an anti-join), run
 * the detection model over each pending image and upsert its detections keyed on
 * (message_id, image_path).
 */
module YoloDetection {
  import opened Wrappers
  import opened Sql

  // ---------------------------------------------------------------------------
  // Configuration
  // ---------------------------------------------------------------------------

  datatype DbConfig = DbConfig(
    host: Option<string>, name: Option<string>, user: Option<string>,
    password: Option<string>, port: Option<string>)

  /** The module-level configuration read from the environment, with its two defaults. */
  function ConfigFromEnv(env: string -> Option<string>): (c: DbConfig)
    ensures env("DB_HOST").None? ==> c.host == Some("localhost")
    ensures env("DB_HOST").Some? ==> c.host == env("DB_HOST")
    ensures env("DB_PORT").None? ==> c.port == Some("5432")
    ensures env("DB_PORT").Some? ==> c.port == env("DB_PORT")
    ensures c.name == env("DB_NAME") && c.user == env("DB_USER") && c.password == env("DB_PASSWORD")
  {
    DbConfig(
      Some(env("DB_HOST").GetOr("localhost")), env("DB_NAME"), env("DB_USER"),
      env("DB_PASSWORD"), Some(env("DB_PORT").GetOr("5432")))
  }

  /** `all([DB_NAME, DB_USER, DB_PASSWORD, DB_HOST, DB_PORT])` */
  predicate ConfigComplete(c: DbConfig)
  {
    Truthy(c.name) && Truthy(c.user) && Truthy(c.password) && Truthy(c.host) && Truthy(c.port)
  }

  // ---------------------------------------------------------------------------
  // Connection retry
  // ---------------------------------------------------------------------------

  /** An open connection, as an opaque handle. */
  datatype Connection = Connection(handle: nat)

  /** What one `psycopg2.connect` call does. */
  datatype ConnectOutcome =
    | Connects(conn: Connection)
    | OperationalError(message: string)
    | OtherError(message: string)

  /** The connector: the outcome of the k-th attempt (k counted from 0). */
  type Connector = nat -> ConnectOutcome

  const DefaultRetries: int := 5
  const DefaultDelay: nat := 3

  const HostNotResolved := "could not translate host name"
  const ServerNotRunning := "Is the server running on host"

  /** `pat in s` on strings. */
  function Contains(s: string, pat: string): (b: bool)
    ensures b <==> exists i :: 0 <= i <= |s| - |pat| && IsPrefixAt(s, pat, i)
    decreases |s|
  {
    if |pat| > |s| then false
    else if s[..|pat|] == pat then assert IsPrefixAt(s, pat, 0); true
    else
      var b := Contains(s[1..], pat);
      assert !IsPrefixAt(s, pat, 0);
      MatchShift(s, pat);
      b
  }

  lemma MatchShift(s: string, pat: string)
    requires 1 <= |s| && |pat| <= |s|
    ensures (exists i :: 1 <= i <= |s| - |pat| && IsPrefixAt(s, pat, i))
        <==> (exists k :: 0 <= k <= |s[1..]| - |pat| && IsPrefixAt(s[1..], pat, k))
  {
    forall i | 1 <= i <= |s| - |pat|
      ensures IsPrefixAt(s, pat, i) == IsPrefixAt(s[1..], pat, i - 1)
    {
      var here, there := s[i..i + |pat|], s[1..][i - 1..i - 1 + |pat|];
      assert forall j :: 0 <= j < |here| ==> here[j] == there[j];
      assert here == there;
    }
    if k :| 0 <= k <= |s[1..]| - |pat| && IsPrefixAt(s[1..], pat, k) {
      assert IsPrefixAt(s, pat, k + 1);
    }
  }

  predicate IsPrefixAt(s: string, pat: string, i: nat)
    requires i + |pat| <= |s|
  {
    s[i..i + |pat|] == pat
  }

  /** Only an OperationalError saying the host is not reachable yet is retried. */
  predicate IsTransient(o: ConnectOutcome)
  {
    o.OperationalError? && (Contains(o.message, HostNotResolved) || Contains(o.message, ServerNotRunning))
  }

  /**
   * An OperationalError is retried whenever either phrase occurs anywhere in its
   * text; a successful connect and any other error class never are.
   */
  lemma TransientMessages(pre: string, post: string, c: Connection, m: string)
    ensures IsTransient(OperationalError(pre + HostNotResolved + post))
    ensures IsTransient(OperationalError(pre + ServerNotRunning + post))
    ensures !IsTransient(OtherError(m)) && !IsTransient(Connects(c))
    ensures !IsTransient(OperationalError(""))
  {
    OccursAt(pre, HostNotResolved, post);
    OccursAt(pre, ServerNotRunning, post);
  }

  lemma OccursAt(pre: string, pat: string, post: string)
    ensures Contains(pre + pat + post, pat)
  {
    var s := pre + pat + post;
    assert s[|pre|..|pre| + |pat|] == pat;
    assert IsPrefixAt(s, pat, |pre|);
  }

  /** The connection; ValueError for a missing setting; an error re-raised; or "Failed to connect ... after {retries} attempts". */
  datatype ConnectResult =
    | Connected(conn: Connection)
    | MissingConfig
    | Raised(error: ConnectOutcome)
    | Exhausted(retries: int)

  /** A call's result, how many connection attempts it made, and the `time.sleep` calls it made. */
  datatype RetryRun = RetryRun(result: ConnectResult, attempts: nat, sleeps: seq<nat>)

  function MaxAttempts(retries: int): nat
  {
    if retries > 0 then retries else 0
  }

  /** The attempts from the i-th on, after i transient failures. */
  function RetryFrom(connector: Connector, retries: int, delay: nat, i: nat): RetryRun
    decreases retries - i
  {
    if i >= retries then RetryRun(Exhausted(retries), i, Sleeps(i, delay))
    else
      var o := connector(i);
      if o.Connects? then RetryRun(Connected(o.conn), i + 1, Sleeps(i, delay))
      else if IsTransient(o) then RetryFrom(connector, retries, delay, i + 1)
      else RetryRun(Raised(o), i + 1, Sleeps(i, delay))
  }

  /** `n` sleeps of `delay` seconds each. */
  function Sleeps(n: nat, delay: nat): (s: seq<nat>)
    ensures |s| == n && forall k :: 0 <= k < n ==> s[k] == delay
  {
    seq(n, _ => delay)
  }

  /**
   * What `RetryFrom` computes: every attempt but the last failed transiently;
   * the run ends with the last attempt's connection, or its non-transient error,
   * or exhaustion after exactly `retries` attempts; one sleep per transient failure.
   */
  lemma {:induction false} RetryFromSpec(connector: Connector, retries: int, delay: nat, i: nat)
    requires i <= MaxAttempts(retries)
    ensures var run := RetryFrom(connector, retries, delay, i);
            && i <= run.attempts <= MaxAttempts(retries)
            && !run.result.MissingConfig?
            && (forall j :: i <= j < run.attempts - 1 ==> IsTransient(connector(j)))
            && (run.result.Connected? ==>
                  i < run.attempts && connector(run.attempts - 1) == Connects(run.result.conn)
                  && run.sleeps == Sleeps(run.attempts - 1, delay))
            && (run.result.Raised? ==>
                  && i < run.attempts && connector(run.attempts - 1) == run.result.error
                  && !run.result.error.Connects? && !IsTransient(run.result.error)
                  && run.sleeps == Sleeps(run.attempts - 1, delay))
            && (run.result.Exhausted? ==>
                  && run.result.retries == retries && run.attempts == MaxAttempts(retries)
                  && (run.attempts > i ==> IsTransient(connector(run.attempts - 1)))
                  && run.sleeps == Sleeps(run.attempts, delay))
    decreases retries - i
  {
    if i < retries {
      var o := connector(i);
      if !o.Connects? && IsTransient(o) {
        RetryFromSpec(connector, retries, delay, i + 1);
      }
    }
  }

  /**
   * `get_db_connection(retries, delay)`: a missing setting fails before any
   * attempt; otherwise at most `retries` attempts, stopping at the first
   * success (returned) or the first non-transient error (re-raised), with a
   * sleep of `delay` after every transient failure, the last one included.
   */
  function ConnectRun(config: DbConfig, connector: Connector, retries: int, delay: nat): (run: RetryRun)
    ensures !ConfigComplete(config) ==> run == RetryRun(MissingConfig, 0, [])
    ensures ConfigComplete(config) ==>
              && run.attempts <= MaxAttempts(retries)
              && !run.result.MissingConfig?
              && (forall j :: 0 <= j < run.attempts - 1 ==> IsTransient(connector(j)))
              && (run.result.Connected? ==>
                    0 < run.attempts && connector(run.attempts - 1) == Connects(run.result.conn)
                    && run.sleeps == Sleeps(run.attempts - 1, delay))
              && (run.result.Raised? ==>
                    && 0 < run.attempts && connector(run.attempts - 1) == run.result.error
                    && !run.result.error.Connects? && !IsTransient(run.result.error)
                    && run.sleeps == Sleeps(run.attempts - 1, delay))
              && (run.result.Exhausted? ==>
                    && run.result.retries == retries && run.attempts == MaxAttempts(retries)
                    && (forall j :: 0 <= j < run.attempts ==> IsTransient(connector(j)))
                    && run.sleeps == Sleeps(run.attempts, delay))
  {
    if !ConfigComplete(config) then RetryRun(MissingConfig, 0, [])
    else
      RetryFromSpec(connector, retries, delay, 0);
      RetryFrom(connector, retries, delay, 0)
  }

  /** The retry loop of `get_db_connection`; `sleeps` records each `time.sleep(delay)`. */
  method GetDbConnection(config: DbConfig, connector: Connector, retries: int, delay: nat) returns (run: RetryRun)
    ensures run == ConnectRun(config, connector, retries, delay)
  {
    if !ConfigComplete(config) {
      return RetryRun(MissingConfig, 0, []);
    }
    var sleeps: seq<nat> := [];
    var i: nat := 0;
    while i < retries
      invariant i <= MaxAttempts(retries)
      invariant sleeps == Sleeps(i, delay)
      invariant RetryFrom(connector, retries, delay, i) == RetryFrom(connector, retries, delay, 0)
      decreases retries - i
    {
      var o := connector(i);
      if o.Connects? {
        return RetryRun(Connected(o.conn), i + 1, sleeps);
      }
      if IsTransient(o) {
        sleeps := sleeps + [delay];
        i := i + 1;
      } else {
        return RetryRun(Raised(o), i + 1, sleeps);
      }
    }
    return RetryRun(Exhausted(retries), i, sleeps);
  }

  /** Three transient failures with `retries = 3` make exactly three attempts and then give up. */
  lemma AlwaysTransientExhausts(config: DbConfig, connector: Connector)
    requires ConfigComplete(config)
    requires forall k :: connector(k) == OperationalError(ServerNotRunning)
    ensures ConnectRun(config, connector, 3, 0) == RetryRun(Exhausted(3), 3, [0, 0, 0])
  {
    assert Contains(ServerNotRunning, ServerNotRunning);
    assert IsTransient(OperationalError(ServerNotRunning));
    assert Sleeps(3, 0) == [0, 0, 0];
  }

  /** A connector that succeeds on the second attempt is used without a third attempt. */
  lemma SecondAttemptConnects(config: DbConfig, connector: Connector, c: Connection)
    requires ConfigComplete(config)
    requires IsTransient(connector(0)) && connector(1) == Connects(c)
    ensures ConnectRun(config, connector, 3, 0) == RetryRun(Connected(c), 2, [0])
  {
    assert Sleeps(1, 0) == [0];
  }

  // ---------------------------------------------------------------------------
  // Tables
  // ---------------------------------------------------------------------------

  /** A row of `raw_telegram_messages` as the work queue reads it. */
  datatype RawRow = RawRow(messageId: int, localMediaPath: Option<string>)

  /** The unique key (message_id, image_path) of a detection row. */
  datatype Asset = Asset(messageId: int, imagePath: string)

  datatype DetectedObject = DetectedObject(classId: int, className: string, confidence: real, bbox: seq<real>)

  /** A row of `raw_image_detections`: its SERIAL id, the JSON list, and the detection time. */
  datatype DetectionRow = DetectionRow(id: nat, detectedObjects: seq<DetectedObject>, detectionTimestamp: int)

  /** The detections table and the next value of its id sequence. */
  datatype DetectionTable = DetectionTable(rows: map<Asset, DetectionRow>, nextId: nat)

  /** Ids are below the sequence's next value and no two rows share one. */
  ghost predicate TableValid(t: DetectionTable)
  {
    && (forall a :: a in t.rows ==> t.rows[a].id < t.nextId)
    && (forall a, b :: a in t.rows && b in t.rows && a != b ==> t.rows[a].id != t.rows[b].id)
  }

  // ---------------------------------------------------------------------------
  // Work queue: the anti-join
  // ---------------------------------------------------------------------------

  /** The (message_id, path) of a raw row, when the path is not NULL. */
  function AssetOf(r: RawRow): Asset
    requires r.localMediaPath.Some?
  {
    Asset(r.messageId, r.localMediaPath.value)
  }

  /**
   * `raw LEFT JOIN detections ON message_id, path WHERE path IS NOT NULL AND
   * rid.id IS NULL`: one entry per raw row that has a path (sentinel text
   * included) and no detection row under the same key, in raw-row order.
   */
  function PendingAssets(raw: seq<RawRow>, detections: map<Asset, DetectionRow>): (pending: seq<Asset>)
    ensures |pending| <= |raw|
    ensures forall a :: a in pending ==> a !in detections
    ensures forall a :: a in pending <==>
              a !in detections && exists i :: 0 <= i < |raw| && raw[i].localMediaPath == Some(a.imagePath)
                                                            && raw[i].messageId == a.messageId
  {
    if raw == [] then []
    else
      var rest := PendingAssets(raw[1..], detections);
      assert forall i :: 1 <= i < |raw| ==> raw[i] == raw[1..][i - 1];
      if raw[0].localMediaPath.Some? && AssetOf(raw[0]) !in detections then [AssetOf(raw[0])] + rest else rest
  }

  /**
   * NULL paths are left out, but any text is a path: a row whose path holds the
   * too-large reason is queued like a downloaded file.
   */
  lemma SentinelPathIsPending(path: string, reason: string)
    ensures var raw := [RawRow(101, None), RawRow(102, Some(path)), RawRow(103, Some(reason))];
            PendingAssets(raw, map[]) == [Asset(102, path), Asset(103, reason)]
  {
    var raw := [RawRow(101, None), RawRow(102, Some(path)), RawRow(103, Some(reason))];
    var none: map<Asset, DetectionRow> := map[];
    assert raw[1..][1..][1..] == [];
    assert PendingAssets(raw[1..][1..][1..], none) == [];
    assert raw[1..][1..] == [RawRow(103, Some(reason))];
    assert PendingAssets(raw[1..][1..], none) == [Asset(103, reason)];
    assert raw[1..] == [RawRow(102, Some(path)), RawRow(103, Some(reason))];
    assert PendingAssets(raw[1..], none) == [Asset(102, path), Asset(103, reason)];
  }

  /** The queue of a concatenation of raw rows is the concatenation of their queues. */
  lemma {:induction false} PendingAssetsAppend(r1: seq<RawRow>, r2: seq<RawRow>, detections: map<Asset, DetectionRow>)
    ensures PendingAssets(r1 + r2, detections) == PendingAssets(r1, detections) + PendingAssets(r2, detections)
  {
    if r1 == [] {
      assert r1 + r2 == r2;
    } else {
      assert (r1 + r2)[1..] == r1[1..] + r2;
      assert (r1 + r2)[0] == r1[0];
      PendingAssetsAppend(r1[1..], r2, detections);
    }
  }

  /** One raw row contributes its own key when it has a path and no detection row, and nothing otherwise. */
  lemma PendingAssetsOne(r: RawRow, detections: map<Asset, DetectionRow>)
    ensures r.localMediaPath.Some? && AssetOf(r) !in detections ==> PendingAssets([r], detections) == [AssetOf(r)]
    ensures r.localMediaPath.None? || AssetOf(r) in detections ==> PendingAssets([r], detections) == []
  {
    assert [r][1..] == [];
  }

  /** The raw rows with a path whose key already has a detection row. */
  function ProcessedAssets(raw: seq<RawRow>, detections: map<Asset, DetectionRow>): seq<Asset>
  {
    if raw == [] then []
    else
      var rest := ProcessedAssets(raw[1..], detections);
      if raw[0].localMediaPath.Some? && AssetOf(raw[0]) in detections then [AssetOf(raw[0])] + rest else rest
  }

  function WithPath(raw: seq<RawRow>): nat
  {
    if raw == [] then 0 else (if raw[0].localMediaPath.Some? then 1 else 0) + WithPath(raw[1..])
  }

  /** Of the N raw rows with a path, the M already processed are left out and all others are pending. */
  lemma {:induction false} PendingCount(raw: seq<RawRow>, detections: map<Asset, DetectionRow>)
    ensures |PendingAssets(raw, detections)| == WithPath(raw) - |ProcessedAssets(raw, detections)|
  {
    if raw != [] {
      PendingCount(raw[1..], detections);
    }
  }

  /** Leave out every occurrence of `a`. */
  function Without(s: seq<Asset>, a: Asset): (r: seq<Asset>)
    ensures forall b :: b in r <==> b in s && b != a
  {
    if s == [] then []
    else
      var rest := Without(s[1..], a);
      assert forall b :: b in s <==> b == s[0] || b in s[1..];
      if s[0] == a then rest else [s[0]] + rest
  }

  /** Writing a detection row for `a` takes exactly `a` off the queue and leaves the rest as it was. */
  lemma {:induction false} PendingAfterWrite(raw: seq<RawRow>, detections: map<Asset, DetectionRow>, a: Asset,
                                             row: DetectionRow)
    ensures PendingAssets(raw, detections[a := row]) == Without(PendingAssets(raw, detections), a)
  {
    if raw != [] {
      PendingAfterWrite(raw[1..], detections, a, row);
    }
  }

  // ---------------------------------------------------------------------------
  // Detection upsert
  // ---------------------------------------------------------------------------

  /**
   * `INSERT ... ON CONFLICT (message_id, image_path) DO UPDATE SET
   * detected_objects, detection_timestamp`: a new key gets the next id; an
   * existing key keeps its id and gets the new detections and time; no other row
   * changes.
   */
  function Upsert(t: DetectionTable, a: Asset, objects: seq<DetectedObject>, now: int): (u: DetectionTable)
    ensures u.rows.Keys == t.rows.Keys + {a}
    ensures u.rows[a].detectedObjects == objects && u.rows[a].detectionTimestamp == now
    ensures a in t.rows ==> u.rows[a].id == t.rows[a].id && u.nextId == t.nextId
    ensures a !in t.rows ==> u.rows[a].id == t.nextId && u.nextId == t.nextId + 1
    ensures forall b :: b in t.rows && b != a ==> u.rows[b] == t.rows[b]
    ensures TableValid(t) ==> TableValid(u)
  {
    if a in t.rows then
      DetectionTable(t.rows[a := DetectionRow(t.rows[a].id, objects, now)], t.nextId)
    else
      DetectionTable(t.rows[a := DetectionRow(t.nextId, objects, now)], t.nextId + 1)
  }

  /** Re-running the detections for one key leaves one row holding the second run's results. */
  lemma UpsertReplaces(t: DetectionTable, a: Asset, first: seq<DetectedObject>, second: seq<DetectedObject>,
                       t1: int, t2: int)
    ensures var u := Upsert(Upsert(t, a, first, t1), a, second, t2);
            && u.rows.Keys == t.rows.Keys + {a}
            && u.rows[a].detectedObjects == second && u.rows[a].detectionTimestamp == t2
            && u.rows[a].id == Upsert(t, a, first, t1).rows[a].id
  {
  }

  /** One store operation: the connection attempts it sees, whether everything after connecting succeeds, and NOW(). */
  datatype StoreCall = StoreCall(connector: Connector, executes: bool, now: int)

  predicate CallSucceeds(config: DbConfig, call: StoreCall)
  {
    ConnectRun(config, call.connector, DefaultRetries, DefaultDelay).result.Connected? && call.executes
  }

  /** `insert_detection_results`: the upsert when it commits, else nothing (every error is swallowed). */
  function AfterDetectionInsert(t: DetectionTable, config: DbConfig, a: Asset, objects: seq<DetectedObject>,
                                call: StoreCall): (u: DetectionTable)
    ensures CallSucceeds(config, call) ==> u == Upsert(t, a, objects, call.now)
    ensures !CallSucceeds(config, call) ==> u == t
    ensures TableValid(t) ==> TableValid(u)
  {
    if CallSucceeds(config, call) then Upsert(t, a, objects, call.now) else t
  }

  // ---------------------------------------------------------------------------
  // Model output and box mapping
  // ---------------------------------------------------------------------------

  /** One box of a result: `int(box.cls[0])`, `float(box.conf[0])`, `box.xyxy[0].tolist()`. */
  datatype Box = Box(classId: int, confidence: real, bbox: seq<real>)

  /** What `model(image_path)` does: raise, or return results, each a list of boxes. */
  datatype Inference = InferenceRaises | Results(results: seq<seq<Box>>)

  function ObjectOf(b: Box, names: int -> string): DetectedObject
  {
    DetectedObject(b.classId, names(b.classId), b.confidence, b.bbox)
  }

  function ObjectsOf(boxes: seq<Box>, names: int -> string): (objs: seq<DetectedObject>)
    ensures |objs| == |boxes| && forall k :: 0 <= k < |boxes| ==> objs[k] == ObjectOf(boxes[k], names)
  {
    seq(|boxes|, k requires 0 <= k < |boxes| => ObjectOf(boxes[k], names))
  }

  /** The list of detections for all results, result by result, box by box. */
  function DetectedObjects(results: seq<seq<Box>>, names: int -> string): seq<DetectedObject>
  {
    if results == [] then []
    else DetectedObjects(results[..|results| - 1], names) + ObjectsOf(results[|results| - 1], names)
  }

  /** Number of boxes in the first `r` results. */
  function BoxesBefore(results: seq<seq<Box>>, r: nat): nat
    requires r <= |results|
  {
    if r == 0 then 0 else BoxesBefore(results, r - 1) + |results[r - 1]|
  }

  /**
   * One entry per box, in order: box b of result r is entry
   * BoxesBefore(results, r) + b, and carries that box's class id, the model's
   * name for it, its confidence and its corners.
   */
  lemma {:induction false} DetectedObjectsAt(results: seq<seq<Box>>, names: int -> string, r: nat, b: nat)
    requires r < |results| && b < |results[r]|
    ensures |DetectedObjects(results, names)| == BoxesBefore(results, |results|)
    ensures BoxesBefore(results, r) + b < |DetectedObjects(results, names)|
    ensures DetectedObjects(results, names)[BoxesBefore(results, r) + b] == ObjectOf(results[r][b], names)
    decreases |results|
  {
    var n := |results| - 1;
    var prefix := results[..n];
    assert forall k :: 0 <= k <= n ==> BoxesBefore(prefix, k) == BoxesBefore(results, k) by {
      forall k | 0 <= k <= n ensures BoxesBefore(prefix, k) == BoxesBefore(results, k) {
        BoxesBeforePrefix(results, n, k);
      }
    }
    DetectedObjectsLength(prefix, names);
    if r < n {
      assert prefix[r] == results[r];
      DetectedObjectsAt(prefix, names, r, b);
      BoxesBeforeMonotone(results, r + 1, n);
    }
  }

  lemma {:induction false} DetectedObjectsLength(results: seq<seq<Box>>, names: int -> string)
    ensures |DetectedObjects(results, names)| == BoxesBefore(results, |results|)
    decreases |results|
  {
    if results != [] {
      var n := |results| - 1;
      DetectedObjectsLength(results[..n], names);
      forall k | 0 <= k <= n ensures BoxesBefore(results[..n], k) == BoxesBefore(results, k) {
        BoxesBeforePrefix(results, n, k);
      }
    }
  }

  lemma {:induction false} BoxesBeforePrefix(results: seq<seq<Box>>, n: nat, k: nat)
    requires k <= n <= |results|
    ensures BoxesBefore(results[..n], k) == BoxesBefore(results, k)
  {
    if k > 0 {
      BoxesBeforePrefix(results, n, k - 1);
    }
  }

  lemma {:induction false} BoxesBeforeMonotone(results: seq<seq<Box>>, j: nat, k: nat)
    requires j <= k <= |results|
    ensures BoxesBefore(results, j) <= BoxesBefore(results, k)
    decreases k
  {
    if j < k {
      BoxesBeforeMonotone(results, j, k - 1);
    }
  }

  /** The nested loop that builds `detected_objects_list`. */
  method MapBoxes(results: seq<seq<Box>>, names: int -> string) returns (objects: seq<DetectedObject>)
    ensures objects == DetectedObjects(results, names)
  {
    objects := [];
    var r := 0;
    while r < |results|
      invariant 0 <= r <= |results|
      invariant objects == DetectedObjects(results[..r], names)
    {
      var boxes := results[r];
      var b := 0;
      while b < |boxes|
        invariant 0 <= b <= |boxes|
        invariant objects == DetectedObjects(results[..r], names) + ObjectsOf(boxes[..b], names)
      {
        objects := objects + [ObjectOf(boxes[b], names)];
        assert ObjectsOf(boxes[..b + 1], names) == ObjectsOf(boxes[..b], names) + [ObjectOf(boxes[b], names)];
        b := b + 1;
      }
      assert boxes[..b] == boxes;
      assert results[..r + 1][..r] == results[..r];
      r := r + 1;
    }
    assert results[..r] == results;
  }

  // ---------------------------------------------------------------------------
  // The batch
  // ---------------------------------------------------------------------------

  /**
   * The collaborators of one batch run: the store calls for table creation and
   * for the work query, the file system, the model and its class names, and the
   * store call of the insert for the i-th pending item.
   */
  datatype YoloEnv = YoloEnv(
    setup: StoreCall,
    fetch: StoreCall,
    fileExists: string -> bool,
    infer: string -> Inference,
    names: int -> string,
    insertCall: nat -> StoreCall)

  /** One pending item: skipped if its file is missing or the model raises, else its detections inserted. */
  function Step(t: DetectionTable, config: DbConfig, a: Asset, env: YoloEnv, i: nat): DetectionTable
  {
    if !env.fileExists(a.imagePath) then t
    else
      match env.infer(a.imagePath)
      case InferenceRaises => t
      case Results(rs) => AfterDetectionInsert(t, config, a, DetectedObjects(rs, env.names), env.insertCall(i))
  }

  /** The item's detections reach the table. */
  predicate ItemWrites(config: DbConfig, a: Asset, env: YoloEnv, i: nat)
  {
    env.fileExists(a.imagePath) && env.infer(a.imagePath).Results? && CallSucceeds(config, env.insertCall(i))
  }

  /** One item changes the table exactly by the upsert of its mapped detections, when they reach it. */
  lemma StepOutcome(t: DetectionTable, config: DbConfig, a: Asset, env: YoloEnv, i: nat)
    ensures ItemWrites(config, a, env, i) ==>
              Step(t, config, a, env, i)
              == Upsert(t, a, DetectedObjects(env.infer(a.imagePath).results, env.names), env.insertCall(i).now)
    ensures !ItemWrites(config, a, env, i) ==> Step(t, config, a, env, i) == t
  {
  }

  /** The table after the first `n` pending items. */
  function Enrich(t: DetectionTable, config: DbConfig, pending: seq<Asset>, env: YoloEnv, n: nat): DetectionTable
    requires n <= |pending|
  {
    if n == 0 then t else Step(Enrich(t, config, pending, env, n - 1), config, pending[n - 1], env, n - 1)
  }

  function WrittenAssets(config: DbConfig, pending: seq<Asset>, env: YoloEnv, n: nat): set<Asset>
    requires n <= |pending|
  {
    set i | 0 <= i < n && ItemWrites(config, pending[i], env, i) :: pending[i]
  }

  /**
   * Continue on error: the batch adds a row for exactly the items whose file
   * exists, whose inference returns and whose insert commits, whatever happened
   * to the items before them.
   */
  lemma {:induction false} EnrichKeys(t: DetectionTable, config: DbConfig, pending: seq<Asset>, env: YoloEnv, n: nat)
    requires n <= |pending|
    ensures Enrich(t, config, pending, env, n).rows.Keys == t.rows.Keys + WrittenAssets(config, pending, env, n)
  {
    if n > 0 {
      EnrichKeys(t, config, pending, env, n - 1);
      var i := n - 1;
      if ItemWrites(config, pending[i], env, i) {
        assert WrittenAssets(config, pending, env, n) == WrittenAssets(config, pending, env, i) + {pending[i]};
      } else {
        assert WrittenAssets(config, pending, env, n) == WrittenAssets(config, pending, env, i);
      }
    }
  }

  /** The batch keeps the ids below the sequence's next value and distinct. */
  lemma {:induction false} EnrichValid(t: DetectionTable, config: DbConfig, pending: seq<Asset>, env: YoloEnv, n: nat)
    requires n <= |pending| && TableValid(t)
    ensures TableValid(Enrich(t, config, pending, env, n))
  {
    if n > 0 {
      EnrichValid(t, config, pending, env, n - 1);
    }
  }

  /** A key written by item i and by no later item holds item i's model output. */
  lemma {:induction false} EnrichLatest(t: DetectionTable, config: DbConfig, pending: seq<Asset>, env: YoloEnv,
                                        n: nat, i: nat)
    requires i < n <= |pending| && ItemWrites(config, pending[i], env, i)
    requires forall j :: i < j < n && ItemWrites(config, pending[j], env, j) ==> pending[j] != pending[i]
    ensures var u := Enrich(t, config, pending, env, n);
            && pending[i] in u.rows
            && u.rows[pending[i]].detectedObjects == DetectedObjects(env.infer(pending[i].imagePath).results, env.names)
            && u.rows[pending[i]].detectionTimestamp == env.insertCall(i).now
  {
    if i < n - 1 {
      EnrichLatest(t, config, pending, env, n - 1, i);
    }
  }

  /** How a batch run ends. */
  datatype BatchOutcome = SetupRaised | NothingPending | ProcessedAll(pending: seq<Asset>)

  /** `get_messages_with_media_paths`: the anti-join result, or [] on any error. */
  function Fetch(config: DbConfig, call: StoreCall, raw: seq<RawRow>, rows: map<Asset, DetectionRow>): seq<Asset>
  {
    if CallSucceeds(config, call) then PendingAssets(raw, rows) else []
  }

  /** `raw_image_detections`, shared by the work query and the inserts. */
  class DetectionStore {
    const config: DbConfig
    var rows: map<Asset, DetectionRow>
    var nextId: nat

    ghost predicate Valid()
      reads this
    {
      TableValid(Table())
    }

    function Table(): DetectionTable
      reads this
    {
      DetectionTable(rows, nextId)
    }

    constructor (config: DbConfig)
      ensures Valid() && this.config == config && rows == map[] && nextId == 1
    {
      this.config := config;
      rows := map[];
      nextId := 1;
    }

    /** `ensure_raw_image_detections_table_exists`: true when it committed; false stands for the re-raised error. */
    method EnsureTableExists(call: StoreCall) returns (ok: bool)
      ensures ok == CallSucceeds(config, call)
    {
      var run := GetDbConnection(config, call.connector, DefaultRetries, DefaultDelay);
      ok := run.result.Connected? && call.executes;
    }

    /** `get_messages_with_media_paths` over the raw rows and this table. */
    method GetMessagesWithMediaPaths(call: StoreCall, raw: seq<RawRow>) returns (pending: seq<Asset>)
      ensures pending == Fetch(config, call, raw, rows)
      ensures CallSucceeds(config, call) ==> forall a :: a in pending ==> a !in rows
      ensures !CallSucceeds(config, call) ==> pending == []
    {
      var run := GetDbConnection(config, call.connector, DefaultRetries, DefaultDelay);
      if !run.result.Connected? || !call.executes {
        return [];
      }
      pending := PendingAssets(raw, rows);
    }

    /** `insert_detection_results`. */
    method InsertDetectionResults(a: Asset, objects: seq<DetectedObject>, call: StoreCall)
      requires Valid()
      modifies this
      ensures Valid()
      ensures Table() == AfterDetectionInsert(old(Table()), config, a, objects, call)
    {
      var run := GetDbConnection(config, call.connector, DefaultRetries, DefaultDelay);
      if !run.result.Connected? || !call.executes {
        return;
      }
      if a in rows {
        rows := rows[a := DetectionRow(rows[a].id, objects, call.now)];
      } else {
        rows := rows[a := DetectionRow(nextId, objects, call.now)];
        nextId := nextId + 1;
      }
    }

    /**
     * `process_images_with_yolo`: table creation, then the work query, then each
     * pending item in turn; nothing pending means nothing is done.
     */
    method ProcessImagesWithYolo(raw: seq<RawRow>, env: YoloEnv) returns (outcome: BatchOutcome)
      requires Valid()
      modifies this
      ensures Valid()
      ensures outcome.SetupRaised? <==> !CallSucceeds(config, env.setup)
      ensures !outcome.ProcessedAll? ==> Table() == old(Table())
      ensures CallSucceeds(config, env.setup) ==>
                var pending := Fetch(config, env.fetch, raw, old(rows));
                if pending == [] then outcome == NothingPending
                else outcome == ProcessedAll(pending) && Table() == Enrich(old(Table()), config, pending, env, |pending|)
    {
      var ok := EnsureTableExists(env.setup);
      if !ok {
        return SetupRaised;
      }
      var pending := GetMessagesWithMediaPaths(env.fetch, raw);
      if pending == [] {
        return NothingPending;
      }
      var i := 0;
      while i < |pending|
        invariant 0 <= i <= |pending|
        invariant Valid()
        invariant Table() == Enrich(old(Table()), config, pending, env, i)
      {
        var a := pending[i];
        if env.fileExists(a.imagePath) {
          var inference := env.infer(a.imagePath);
          if inference.Results? {
            var objects := MapBoxes(inference.results, env.names);
            InsertDetectionResults(a, objects, env.insertCall(i));
          }
        }
        i := i + 1;
      }
      return ProcessedAll(pending);
    }
  }
}
