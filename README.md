# Medical Telegram pipeline — a Dafny model of its decision core

The system is a two-stage data pipeline with a read API on top.

1. **Ingestion.** The scraper reads the latest messages of a fixed list of Telegram channels. Each message's media first goes through a *size gate*:
   - a file of at most 20 MiB is downloaded;
   - a larger file is skipped, and a reason string stands in its path.

   Each message then becomes a 12-column record, upserted into `telegram_messages` keyed on `id`.
2. **Enrichment.** The YOLO stage connects to the store with bounded retries and builds a work queue: each media path that has no detection row yet (an anti-join). It runs the object-detection model on each queued image and upserts the detected boxes keyed on `(message_id, image_path)`.
3. **Read API.** `GET /messages` and `GET /image_detections` check `limit` and assemble a parameterised query. There is one clause and one `%s` parameter per active filter, then `LIMIT` and `OFFSET`.

How the model is built:
- The collaborators are parameters:
  - the messaging client;
  - the store connection and its transactions;
  - the file system;
  - the detection model.
- Tables are maps, and the stateful parts are classes:
  - `TelegramScraper.MessageStore` holds `telegram_messages`;
  - `YoloDetection.DetectionStore` holds `raw_image_detections`.
  Their loops are methods proved against fold functions (`Ingest`, `ScrapeAll`, `Enrich`). The lemmas about the folds state what a run leaves behind:
  - one row per key;
  - the row of a key is the last committed record with that key;
  - the table gains exactly the committed keys, whatever failed around them.
- SQL statements are sequences of fragments: verbatim text, or a `%s` placeholder. `Sql.Bindings` pairs each placeholder with the clause text before it and the parameter that fills it. That is the sense in which a clause and its parameter are "aligned".

Modules:
- `Wrappers`: `Option`.
- `Sql`: values, statements, positional binding.
- `TelegramScraper`: `src/scraper/telegram_scraper.py`.
- `YoloDetection`: `src/yolo/yolo_object_detection.py`.
- `Api`: `src/api/main.py`.

Two behaviours of the code that the model keeps as written:
- **Message upsert.** The message upsert overwrites on conflict: `ON CONFLICT (id) DO UPDATE` sets every column (src/scraper/telegram_scraper.py:84-96). It is therefore last-write-wins (`TelegramScraper.AfterInsert`, `UpsertLastWriteWins`).
- **Sentinel paths in the work queue.** The work query filters only on `local_media_path IS NOT NULL` (src/yolo/yolo_object_detection.py:98-108). A row whose path holds the too-large reason text is therefore queued like a downloaded file (`YoloDetection.SentinelPathIsPending`).

## Model

| member | source | states |
|---|---|---|
| TelegramScraper.LargestPhotoSize | src/scraper/telegram_scraper.py:140 | The result is at least every variant size that is present, and it is either 0 or one of those sizes: the maximum with default 0 |
| TelegramScraper.DeclaredSize | src/scraper/telegram_scraper.py:135-141 | The document's size when it has one; else the largest photo variant when the photo has a non-empty size list; else 0 |
| TelegramScraper.AcquireMedia | src/scraper/telegram_scraper.py:129-166 | Download attempted iff there is media and its declared size is ≤ 20 MiB. No media: no type, no path. Skipped: type `skipped_too_large`, and the path is the reason string naming the size. Admitted: the type follows the media class; a raising download gives `Download_Failed`, a falsy return no path, otherwise the returned path |
| TelegramScraper.SizeGateBoundary | src/scraper/telegram_scraper.py:143-153 | A document of exactly 20 MiB is downloaded; one of 20 MiB + 1 byte is skipped as too large |
| TelegramScraper.NatToString | src/scraper/telegram_scraper.py:145 | `str(n)`: at least one digit, only digits, no leading zero whenever there is more than one digit, and it reads back as `n` |
| TelegramScraper.Hundredths | src/scraper/telegram_scraper.py:145 | The size in MiB rounded to hundredths as `:.2f` rounds: a nearest hundredth (within half a hundredth), the even one at a tie |
| TelegramScraper.TwoDecimalsValue | src/scraper/telegram_scraper.py:145 | A count of hundredths prints as `str` of its whole part (so no leading zero), a point and two digits, and reads back as that count |
| TelegramScraper.Megabytes | src/scraper/telegram_scraper.py:145 | `{x:.2f}` of the size in MiB: the integer part is `NatToString` of the rounded value's whole part (no leading zero), then a point and two digits; together they read back as the rounded hundredths |
| TelegramScraper.SkipReason | src/scraper/telegram_scraper.py:145 | The reason names the file's size in MB to two decimals and the limit as `20.00MB` |
| TelegramScraper.MegabytesWhole | src/scraper/telegram_scraper.py:145 | A whole number of MiB formats as its decimal digits followed by `.00` |
| TelegramScraper.SkipReasonFor25MiB | src/scraper/telegram_scraper.py:143-145 | A 25 MiB file gives the reason `File too large (25.00MB > 20.00MB)` |
| TelegramScraper.DownloadedPath | src/scraper/telegram_scraper.py:156-162 | A raising download gives `Download_Failed`. A returning one gives a path iff the returned value is truthy, and then that value |
| TelegramScraper.ThreeMessageMedia | src/scraper/telegram_scraper.py:129-166 | Gate outcomes for messages 101-103. No media: nothing. 5 MiB photo: downloaded, path recorded. 25 MiB document: not downloaded, with the reason `File too large (25.00MB > 20.00MB)` as its path |
| TelegramScraper.MessageData | src/scraper/telegram_scraper.py:169-182 | The record has twelve entries whose keys are the INSERT column list, in order |
| TelegramScraper.InsertMessageSqlPlaceholders | src/scraper/telegram_scraper.py:78-97 | The INSERT statement has exactly twelve placeholders |
| TelegramScraper.MessageDataAligned | src/scraper/telegram_scraper.py:79-83 | Per message, the record's value count equals the column count and the placeholder count, and its keys match the columns position by position |
| TelegramScraper.Values | src/scraper/telegram_scraper.py:99 | `list(message_data.values())`: one value per entry, in entry order |
| TelegramScraper.RowMatchesMessageData | src/scraper/telegram_scraper.py:99 | Binding `list(message_data.values())` positionally to the column list stores each record value under the column named by its own key |
| TelegramScraper.MessageDataDefaults | src/scraper/telegram_scraper.py:170-180 | `id` is the message id. Missing `views`/`forwards` give 0. No replies object gives 0 replies, otherwise its count. `media_type` and `media_path` are the gate's type and path (the reason or sentinel included), NULL when absent. `_file` is `telegram_channel_<channel>.json` |
| TelegramScraper.AfterInsert | src/scraper/telegram_scraper.py:84-104 | A committed upsert with a non-NULL id keeps exactly one row under that id, holding the new values and the store time as `_extracted_at`. No other row changes. A failed one leaves the table unchanged |
| TelegramScraper.UpsertIdempotent | src/scraper/telegram_scraper.py:84-96 | Writing the same record twice with the same outcome equals writing it once |
| TelegramScraper.UpsertLastWriteWins | src/scraper/telegram_scraper.py:84-96 | Two committed writes of one id leave one row, holding the second write's values |
| TelegramScraper.MessageStore.InsertMessage | src/scraper/telegram_scraper.py:75-106 | The table becomes exactly the upsert applied to the old table: committed and written, or rolled back with the error swallowed |
| TelegramScraper.NormalizeWrites | src/scraper/telegram_scraper.py:169-183 | A message's record carries its own id, and it is written exactly when its INSERT commits |
| TelegramScraper.IngestStep | src/scraper/telegram_scraper.py:183 | One more message either sets its id's row to its record (commit) or leaves the table as it was (failure) |
| TelegramScraper.IngestKeys | src/scraper/telegram_scraper.py:128-184 | After a run, the table's keys are the old keys plus the ids of the messages whose INSERT committed, whatever failed around them |
| TelegramScraper.IngestUntouched | src/scraper/telegram_scraper.py:128-184 | A row whose id no committed message carries keeps its old contents |
| TelegramScraper.IngestKeepsRow | src/scraper/telegram_scraper.py:183 | A row survives a message whose INSERT fails or that writes another id |
| TelegramScraper.IngestLatest | src/scraper/telegram_scraper.py:128-184 | The row of an id holds the record of the last committed message carrying that id |
| TelegramScraper.ScrapeChannel | src/scraper/telegram_scraper.py:108-188 | No store connection: nothing is scraped. Otherwise the messages up to `limit` are upserted in order, and every message is counted whether or not its INSERT committed. An exception escaping the feed stops the channel after the messages already handled |
| TelegramScraper.ScrapeAllKeys | src/scraper/telegram_scraper.py:203-207 | After all channels, the table holds the old keys plus every committed id of every channel, whatever the other channels did |
| TelegramScraper.ScrapeAllUntouched | src/scraper/telegram_scraper.py:190-211 | After all channels, a row that no channel's committed message writes keeps its old contents |
| TelegramScraper.ScrapeAllLatest | src/scraper/telegram_scraper.py:190-211 | After all channels, taken in list order, the row of an id holds the record of the last committed message with that id. The table is keyed on `id` alone (:50, :84), so a later channel's message replaces an earlier channel's row with the same id |
| TelegramScraper.MainScraperTask | src/scraper/telegram_scraper.py:190-211 | Each of the three channels is scraped in turn with limit 100, and an earlier channel's failure does not skip a later one. One outcome per channel; unavailable iff that channel's store is unreachable. The table is the fold over all channels |
| YoloDetection.ConfigFromEnv | src/yolo/yolo_object_detection.py:13-17 | Host and port are the environment's values when set (the empty string included), else `localhost` and `5432`. Name, user and password are the environment's values as given |
| YoloDetection.Contains | src/yolo/yolo_object_detection.py:46 | `pat in s`: true iff `pat` occurs in `s` at some position |
| YoloDetection.TransientMessages | src/yolo/yolo_object_detection.py:45-52 | An OperationalError is retried whenever either phrase occurs anywhere in its text. An error of another class, a success, or an OperationalError with no text is never retried |
| YoloDetection.RetryFromSpec | src/yolo/yolo_object_detection.py:34-54 | From attempt i on, within the bound: every attempt but the last failed transiently. The result is the last attempt's connection, or its non-transient error re-raised, or exhaustion after exactly `retries` attempts. There is one sleep per transient failure |
| YoloDetection.ConnectRun | src/yolo/yolo_object_detection.py:27-54 | A missing setting fails with no attempt. Otherwise at most `retries` attempts (none when `retries` ≤ 0). A success returns that connection; a non-transient error is re-raised at once; exhaustion means every attempt failed transiently. There is a `delay` sleep after every transient failure, the last one included |
| YoloDetection.GetDbConnection | src/yolo/yolo_object_detection.py:27-54 | The retry loop produces exactly the run `ConnectRun` describes |
| YoloDetection.AlwaysTransientExhausts | src/yolo/yolo_object_detection.py:46-54 | With a connector that is never ready and `retries = 3`: three attempts, three sleeps, then exhaustion |
| YoloDetection.SecondAttemptConnects | src/yolo/yolo_object_detection.py:34-48 | With a transient failure and then a success: two attempts, the second connection returned, one sleep, no third attempt |
| YoloDetection.PendingAssets | src/yolo/yolo_object_detection.py:98-108 | An asset is pending iff some raw row has that message id and that non-NULL path and no detection row has that key. There are no other entries (multiplicity and order: `PendingAssetsAppend`, `PendingAssetsOne`) |
| YoloDetection.PendingAssetsAppend | src/yolo/yolo_object_detection.py:98-108 | The queue of concatenated raw rows is the concatenation of their queues: each raw row contributes on its own, in raw-row order |
| YoloDetection.PendingAssetsOne | src/yolo/yolo_object_detection.py:105-107 | A single raw row contributes exactly its own key when its path is not NULL and no detection row has that key, and nothing otherwise |
| YoloDetection.SentinelPathIsPending | src/yolo/yolo_object_detection.py:98-108 | Rows 101 (no path), 102 (a path) and 103 (the reason text) against an empty table: 102 and 103 are pending, 101 is not |
| YoloDetection.PendingCount | src/yolo/yolo_object_detection.py:98-108 | The pending count is the rows-with-a-path count minus the already-processed count |
| YoloDetection.PendingAfterWrite | src/yolo/yolo_object_detection.py:105-108 | Writing a detection row for one key takes exactly that key off the queue and leaves the rest in order |
| YoloDetection.DetectionStore.GetMessagesWithMediaPaths | src/yolo/yolo_object_detection.py:91-118 | The anti-join against the current table when the connection and query succeed (nothing already detected is returned); `[]` on any error |
| YoloDetection.Upsert | src/yolo/yolo_object_detection.py:127-135 | Existing key: keeps its id and gains the new detections and time. New key: takes the next id. No other row changes, and unique ids are preserved |
| YoloDetection.UpsertReplaces | src/yolo/yolo_object_detection.py:132-134 | Re-running one key leaves one row with the second run's detections and time, under the same id |
| YoloDetection.AfterDetectionInsert | src/yolo/yolo_object_detection.py:121-150 | The upsert when connection and statement succeed, else the unchanged table (every error swallowed); the table stays valid |
| YoloDetection.DetectionStore.InsertDetectionResults | src/yolo/yolo_object_detection.py:121-150 | The table becomes `AfterDetectionInsert` of the old table, and its id invariant is preserved |
| YoloDetection.DetectedObjectsLength | src/yolo/yolo_object_detection.py:178-191 | One entry per box, summed over all results |
| YoloDetection.DetectedObjectsAt | src/yolo/yolo_object_detection.py:179-191 | Box b of result r is the entry at (boxes before r) + b. It carries the class id, the model's name for that id, the confidence and the corners |
| YoloDetection.MapBoxes | src/yolo/yolo_object_detection.py:178-191 | The nested loop builds exactly `DetectedObjects`: result by result, box by box |
| YoloDetection.StepOutcome | src/yolo/yolo_object_detection.py:168-196 | One pending item changes the table by the upsert of its mapped detections exactly when its file exists, the model returns and the insert commits; otherwise the table is unchanged |
| YoloDetection.EnrichKeys | src/yolo/yolo_object_detection.py:168-196 | The batch adds a row for exactly the items whose file exists, whose inference returns and whose insert commits, regardless of failures before them |
| YoloDetection.EnrichValid | src/yolo/yolo_object_detection.py:168-196 | The batch keeps every id below the sequence's next value and no two rows sharing one |
| YoloDetection.EnrichLatest | src/yolo/yolo_object_detection.py:174-193 | A key written by item i and by no later item holds item i's mapped detections and its insert time |
| YoloDetection.DetectionStore.EnsureTableExists | src/yolo/yolo_object_detection.py:57-88 | Reports success exactly when connecting and executing succeed; failure stands for the re-raised error |
| YoloDetection.DetectionStore.ProcessImagesWithYolo | src/yolo/yolo_object_detection.py:154-198 | Failing setup raises and changes nothing; an empty queue returns and changes nothing. Otherwise every pending item is processed in turn and the table is the fold over the queue. The id invariant holds throughout |
| Api.FilterBinds | src/api/main.py:127-132 | A filter clause has one placeholder, bound to its parameter under the clause's own text |
| Api.PageBinds | src/api/main.py:134-135 | The closing clause has two placeholders: the first is bound after `LIMIT` to the limit, the second after `OFFSET` to the offset |
| Api.AppendFilter | src/api/main.py:127-129 | Appending a clause and its parameter keeps placeholders and parameters equal in number, and adds exactly one binding (clause text, parameter) at the end |
| Api.AppendFilterIf | src/api/main.py:127-132 | Under the condition, the same as AppendFilter; otherwise the statement, parameters and bindings are unchanged |
| Api.AppendPage | src/api/main.py:134-135 | Appends `ORDER BY ... LIMIT %s OFFSET %s;` and `[limit, offset]`, adding those two bindings at the end |
| Api.GetMessages | src/api/main.py:96-137 | Rejected with 400 iff `limit` is outside [1, 100], whatever the offset. Otherwise the channel clause is present iff the name is non-empty (bound to `%name%`) and the views clause iff `min_views` is given (0 included), in that order. Placeholders equal parameters, and the parameters end with `[limit, offset]` |
| Api.GetImageDetections | src/api/main.py:183-232 | Rejected with 400 iff `limit` is outside [1, 100]. Otherwise the object-class (`%class%`), confidence (only when > 0) and channel (`%name%`) clauses, in that order. Each placeholder is bound to its own clause's parameter, and the parameters end with `[limit, offset]` |
| Sql.RenderPlaceholders | src/api/main.py:125-137 | When no SQL text contains `%`, the string the driver receives has one `%` per placeholder |
| Sql.PercentsAppend | src/api/main.py:125-135 | The `%` count of a concatenation is the sum of the parts' |
| Sql.PlaceholdersAppend | src/api/main.py:127-135 | The placeholders of a concatenation are the sum of the parts' |
| Sql.Bindings | src/api/main.py:137 | There is one binding per parameter, and the k-th binding carries the k-th parameter |
| Sql.BindingsValues | src/api/main.py:134-137 | The bound values are the parameters in placeholder order, so a tail of the bindings is a tail of the parameter list |
| Sql.BindingsAppend | src/api/main.py:125-135 | Appending a clause that opens with SQL text appends its bindings to the statement's |
| Sql.TextBindsNothing | src/api/main.py:112-125 | SQL text alone has no placeholder and binds nothing |
| Sql.ParamList | src/scraper/telegram_scraper.py:83 | `%s, %s, ..., %s` with n entries has n placeholders, and its separators contain no `%` |
| Sql.Bind | src/scraper/telegram_scraper.py:79-83 | The row an INSERT writes has exactly the listed columns |
| Sql.BindAt | src/scraper/telegram_scraper.py:79-83 | With distinct column names, the i-th column receives the i-th value |

## Left out

- The Telegram client (`client.start`, `iter_messages`, `download_media`) is network I/O. It is modelled as data:
  - a channel's message history, capped by `limit`;
  - where an exception escapes the loop body, if anywhere (`raisesAt`). This stands for any exception that leaves `scrape_channel` before the end of its loop and so ends the channel at telegram_scraper.py:204-207. Examples: the `conn.cursor()` outside the `try` (:77), a failing `conn.rollback()` inside the `except` (:103), or an error of the client (:128);
  - for each message, what its download and its INSERT do (`FeedItem`, `ChannelFeed`).
- `connect_db` is the `dbReachable` flag of a channel feed. The psycopg2 connection, cursor, commit and rollback are not modelled; each statement becomes a commit-or-fail outcome. Only the errors of `execute`/`commit` are swallowed (telegram_scraper.py:98-104). `create_table_if_not_exists` (:45-73) and `os.makedirs` (:125) are not modelled: they change no rows. An exception from their unguarded `conn.cursor()`, their failing `rollback` or `makedirs` ends the channel before its loop. That is `raisesAt = 0`: the outcome is `Raised(0)`, or `Finished(0)` for a channel with no messages, and no row changes in either case.
- In the YOLO stage, "everything after connecting succeeds" is one flag per store call (`StoreCall.executes`). `EnsureTableExists` creates no rows; it stands for the setup call whose failure is re-raised.
- `asyncio` and `time.sleep` are scheduling only: each sleep is recorded in `RetryRun.sleeps`, never performed.
- The detection model is a parameter. `model.names` is a total function, so a `KeyError` on an unknown class id is not modelled. `int(box.cls[0])`, `float(...)` and `tolist()` are taken as already-converted values.
- Floating point: confidences and box corners are reals, NaN is not modelled, and `min_confidence > 0` is compared on reals. The `:.2f` megabyte formatting is exact rational arithmetic with ties to even. That matches Python's result for sizes below 2^53 bytes.
- `json.dumps(message.to_dict())` is the opaque `rawJson` field, and `json.dumps(detections)` is the detection list itself.
- `os.path.relpath` is not applied: the recorded path is the one the download returned. `os.makedirs` is not modelled, and `os.path.exists` is a parameter.
- TelegramScraper.DeclaredSize: a `size` attribute that is present but `None` (which would raise in the comparison) is not modelled; sizes are absent or natural numbers.
- YoloDetection.Upsert: the `SERIAL` sequence is modelled as advancing only when a new row is created. PostgreSQL also consumes values on conflicts and rollbacks, so real ids may have gaps the model does not show. The uniqueness of ids holds either way.
- Sql.RenderPlaceholders: the premise that no SQL text contains `%` is proved for the generated placeholder lists (`ParamList`), not for the program's SQL string constants. Those constants contain no `%` by inspection; a proof over literals that long is beyond the verifier's resource budget.
- The `INTEGER`/`BIGINT` column widths are not modelled; integers are unbounded.
- The FastAPI connection pool and dependency (main.py:37-84), query execution, result ordering and the 500 error paths (main.py:137-146) are not modelled. A request ends in the prepared statement and its parameters. The SELECT texts are written on one line, and whitespace and the SQL comment inside them do not affect the model.
- `get_channels`, `get_detection_classes` and `setrepo.py` are not modelled: they are fixed queries or directory scaffolding with no logic.
- The scraper writes `telegram_messages.media_path`, while the YOLO stage reads `raw_telegram_messages.local_media_path`. Whatever connects the two tables is not part of this model, so the work queue takes its raw rows as an input sequence.
- TelegramScraper.ThreeMessageMedia: for the three-message run (101, 102, 103), the model proves the gate outcomes of the three messages and, separately, the queue (`YoloDetection.SentinelPathIsPending`). It does not prove a single lemma unfolding the concrete three-message ingest.
- YoloDetection.PendingAssets: the work query has no `ORDER BY` (yolo_object_detection.py:98-108), so the order of its rows is the database's choice. `raw` stands for the raw rows in the order the database returns them, and the queue keeps that order. Which SERIAL id each new detection row receives depends on that order.
- Console output (`print`) is not modelled.
