/**
 * Ingestion stage: for each message delivered by a channel, decide whether to
 * download its media (size gate), normalise the message into the 12-column record
 * and upsert it into `telegram_messages` keyed on `id`; per-message faults never
 * stop the loop, and a failing channel never stops the next one.
 */
module TelegramScraper {
  import opened Wrappers
  import opened Sql

  // ---------------------------------------------------------------------------
  // Media descriptor, as the messaging client exposes it
  // ---------------------------------------------------------------------------

  /** One stored variant of a photo; `size` is None when the variant has no `size` attribute. */
  datatype PhotoSize = PhotoSize(size: Option<nat>)

  /** `sizes` is None when the photo object has no `sizes` attribute. */
  datatype Photo = Photo(sizes: Option<seq<PhotoSize>>)

  /** `size` is None when the document object has no `size` attribute. */
  datatype Document = Document(size: Option<nat>)

  /** The client class of the media object (`isinstance` tests). */
  datatype MediaClass = MessageMediaPhoto | MessageMediaDocument | OtherMediaClass

  /** `document`/`photo` are None when the media object lacks the attribute or holds None there. */
  datatype Media = Media(kind: MediaClass, document: Option<Document>, photo: Option<Photo>)

  const MaxMediaFileSizeBytes: nat := 20 * 1024 * 1024

  predicate HasDocumentSize(m: Media)
  {
    m.document.Some? && m.document.value.size.Some?
  }

  /** The photo branch applies: a photo whose `sizes` is present and non-empty. */
  predicate HasPhotoSizes(m: Media)
  {
    m.photo.Some? && m.photo.value.sizes.Some? && m.photo.value.sizes.value != []
  }

  /** `max([s.size for s in sizes if hasattr(s, 'size')], default=0)` */
  function LargestPhotoSize(sizes: seq<PhotoSize>): (r: nat)
    ensures forall i :: 0 <= i < |sizes| && sizes[i].size.Some? ==> sizes[i].size.value <= r
    ensures r == 0 || exists i :: 0 <= i < |sizes| && sizes[i].size == Some(r)
  {
    if sizes == [] then 0
    else
      var rest := LargestPhotoSize(sizes[1..]);
      assert forall i :: 1 <= i < |sizes| ==> sizes[i] == sizes[1..][i - 1];
      match sizes[0].size
      case None => rest
      case Some(s) => if s >= rest then s else rest
  }

  /**
   * The size the gate compares with the limit: the document's size when it has
   * one; otherwise the largest photo variant that has a size (0 when none has);
   * otherwise 0.
   */
  function DeclaredSize(m: Media): (r: nat)
    ensures HasDocumentSize(m) ==> r == m.document.value.size.value
    ensures !HasDocumentSize(m) && HasPhotoSizes(m) ==>
              var sizes := m.photo.value.sizes.value;
              && (forall i :: 0 <= i < |sizes| && sizes[i].size.Some? ==> sizes[i].size.value <= r)
              && (r == 0 || exists i :: 0 <= i < |sizes| && sizes[i].size == Some(r))
    ensures !HasDocumentSize(m) && !HasPhotoSizes(m) ==> r == 0
  {
    if HasDocumentSize(m) then m.document.value.size.value
    else if HasPhotoSizes(m) then LargestPhotoSize(m.photo.value.sizes.value)
    else 0
  }

  // ---------------------------------------------------------------------------
  // The reason string `File too large (X.XXMB > Y.YYMB)`
  // ---------------------------------------------------------------------------

  const MiB: nat := 1024 * 1024

  function Digit(d: nat): char
    requires d < 10
  {
    ('0' as int + d) as char
  }

  /** The value of a decimal digit character. */
  function DigitValue(c: char): int
  {
    c as int - '0' as int
  }

  predicate IsDigit(c: char)
  {
    '0' <= c <= '9'
  }

  /** The number a string of decimal digits denotes, read from the left. */
  function DecimalValue(s: string): int
  {
    if s == [] then 0 else DecimalValue(s[..|s| - 1]) * 10 + DigitValue(s[|s| - 1])
  }

  /** `str(n)`: its digits, without leading zeros, read back as `n`. */
  function NatToString(n: nat): (s: string)
    ensures |s| >= 1 && (forall i :: 0 <= i < |s| ==> IsDigit(s[i]))
    ensures DecimalValue(s) == n
    ensures |s| > 1 ==> s[0] != '0'
    decreases n
  {
    if n < 10 then
      assert [Digit(n)][..0] == [];
      [Digit(n)]
    else
      var front := NatToString(n / 10);
      assert (front + [Digit(n % 10)])[..|front|] == front;
      assert |front| == 1 ==> front[..0] == [] && DecimalValue(front) == DigitValue(front[0]);
      front + [Digit(n % 10)]
  }

  /**
   * `n / 2^20` rounded to hundredths, ties to even: how `:.2f` rounds the exact
   * binary value of `n / (1024 * 1024)`. The result is a nearest hundredth, and
   * the even one of the two when `n` lies halfway.
   */
  function Hundredths(n: nat): (h: nat)
    ensures 2 * (n * 100 - h * MiB) <= MiB && 2 * (h * MiB - n * 100) <= MiB
    ensures (2 * (n * 100 - h * MiB) == MiB || 2 * (h * MiB - n * 100) == MiB) ==> h % 2 == 0
  {
    var q := n * 100 / MiB;
    var r := n * 100 % MiB;
    if 2 * r > MiB || (2 * r == MiB && q % 2 == 1) then q + 1 else q
  }

  function TwoDecimals(h: nat): string
  {
    NatToString(h / 100) + "." + [Digit(h / 10 % 10), Digit(h % 10)]
  }

  /**
   * `h` hundredths printed with two decimals: the integer part as `str` prints it
   * (so no leading zero), a point and two digits, reading back as `h`.
   */
  lemma TwoDecimalsValue(h: nat)
    ensures var r := TwoDecimals(h);
            && |r| >= 4 && r[|r| - 3] == '.'
            && r[..|r| - 3] == NatToString(h / 100)
            && (|r| > 4 ==> r[0] != '0')
            && (forall i :: 0 <= i < |r| && i != |r| - 3 ==> IsDigit(r[i]))
            && DecimalValue(r[..|r| - 3]) * 100 + DecimalValue(r[|r| - 2..]) == h
  {
    var whole := NatToString(h / 100);
    var tail := [Digit(h / 10 % 10), Digit(h % 10)];
    var r := whole + "." + tail;
    assert r == TwoDecimals(h);
    assert r[..|r| - 3] == whole && r[|r| - 2..] == tail;
    TwoDigitsValue(h / 10 % 10, h % 10);
    assert (h / 10 % 10) * 10 + h % 10 == h % 100;
  }

  /**
   * `f"{n / (1024 * 1024):.2f}"`: digits, a point and two more digits, which read
   * back as the rounded number of hundredths; the integer part is `str` of the
   * whole MiB count, so it has no leading zero.
   */
  function Megabytes(n: nat): (r: string)
    ensures |r| >= 4 && r[|r| - 3] == '.'
    ensures r[..|r| - 3] == NatToString(Hundredths(n) / 100)
    ensures |r| > 4 ==> r[0] != '0'
    ensures forall i :: 0 <= i < |r| && i != |r| - 3 ==> IsDigit(r[i])
    ensures DecimalValue(r[..|r| - 3]) * 100 + DecimalValue(r[|r| - 2..]) == Hundredths(n)
  {
    TwoDecimalsValue(Hundredths(n));
    TwoDecimals(Hundredths(n))
  }

  lemma TwoDigitsValue(a: nat, b: nat)
    requires a < 10 && b < 10
    ensures DecimalValue([Digit(a), Digit(b)]) == a * 10 + b
  {
    var s := [Digit(a), Digit(b)];
    assert s[..1] == [Digit(a)] && s[..1][..0] == [];
    assert DecimalValue(s[..1]) == a;
  }

  /** The reason recorded for a skipped file, with the limit printed as `20.00`. */
  function SkipReason(fileSize: nat): (r: string)
    ensures r == "File too large (" + Megabytes(fileSize) + "MB > 20.00MB)"
  {
    MegabytesOf(20);
    assert MaxMediaFileSizeBytes == 20 * MiB;
    "File too large (" + Megabytes(fileSize) + "MB > " + Megabytes(MaxMediaFileSizeBytes) + "MB)"
  }

  lemma MulDivMiB(h: nat)
    ensures (h * MiB) / MiB == h && (h * MiB) % MiB == 0
  {
  }

  lemma WholeHundredths(k: nat)
    ensures (k * 100) / 100 == k && (k * 100) % 10 == 0 && ((k * 100) / 10) % 10 == 0
  {
    assert (k * 100) / 10 == k * 10;
  }

  /** A whole number of MiB is printed with `.00`. */
  lemma MegabytesWhole(k: nat)
    ensures Megabytes(k * MiB) == NatToString(k) + ".00"
  {
    assert k * MiB * 100 == (k * 100) * MiB;
    MulDivMiB(k * 100);
    WholeHundredths(k);
    assert Hundredths(k * MiB) == k * 100;
  }

  // ---------------------------------------------------------------------------
  // Media acquisition gate
  // ---------------------------------------------------------------------------

  const MediaTypeSkipped := "skipped_too_large"
  const MediaTypePhoto := "photo"
  const MediaTypeDocument := "document"
  const MediaTypeOther := "other_media"
  const DownloadFailed := "Download_Failed"

  /** What `download_media` does when it is called: raise, or return a path (None or "" being falsy). */
  datatype DownloadOutcome = DownloadRaises | DownloadReturns(filePath: Option<string>)

  /** `media_type`, `media_path`, and whether `download_media` was called. */
  datatype Acquisition = Acquisition(mediaType: Option<string>, mediaPath: Option<string>, downloadAttempted: bool)

  function MediaTypeOf(kind: MediaClass): string
  {
    match kind
    case MessageMediaPhoto => MediaTypePhoto
    case MessageMediaDocument => MediaTypeDocument
    case OtherMediaClass => MediaTypeOther
  }

  /** The `media_path` a download leaves: a failure sentinel, nothing, or the returned path. */
  function DownloadedPath(download: DownloadOutcome): (p: Option<string>)
    ensures download.DownloadRaises? ==> p == Some(DownloadFailed)
    ensures download.DownloadReturns? ==> (p.Some? <==> Truthy(download.filePath))
    ensures download.DownloadReturns? && p.Some? ==> p == download.filePath
  {
    match download
    case DownloadRaises => Some(DownloadFailed)
    case DownloadReturns(p) => if p.Some? && p.value != "" then Some(p.value) else None
  }

  /**
   * The gate: no media gives no type and no path; media over the limit is not
   * downloaded and records the reason as its path; other media is downloaded and
   * records its kind and the download's outcome.
   */
  function AcquireMedia(media: Option<Media>, download: DownloadOutcome): (a: Acquisition)
    ensures a.downloadAttempted <==> media.Some? && DeclaredSize(media.value) <= MaxMediaFileSizeBytes
    ensures media.None? ==> a.mediaType.None? && a.mediaPath.None?
    ensures media.Some? && !a.downloadAttempted ==>
              && a.mediaType == Some(MediaTypeSkipped)
              && a.mediaPath == Some(SkipReason(DeclaredSize(media.value)))
    ensures a.downloadAttempted ==>
              && a.mediaType == Some(MediaTypeOf(media.value.kind))
              && (download.DownloadRaises? ==> a.mediaPath == Some(DownloadFailed))
              && (download.DownloadReturns? && (download.filePath.None? || download.filePath == Some("")) ==>
                     a.mediaPath.None?)
              && (download.DownloadReturns? && download.filePath.Some? && download.filePath.value != "" ==>
                     a.mediaPath == download.filePath)
  {
    match media
    case None => Acquisition(None, None, false)
    case Some(m) =>
      var fileSize := DeclaredSize(m);
      if fileSize > MaxMediaFileSizeBytes then
        Acquisition(Some(MediaTypeSkipped), Some(SkipReason(fileSize)), false)
      else
        Acquisition(Some(MediaTypeOf(m.kind)), DownloadedPath(download), true)
  }

  /** The limit is inclusive: exactly 20 MiB is downloaded, one byte more is skipped. */
  lemma SizeGateBoundary(kind: MediaClass, download: DownloadOutcome)
    ensures var atLimit := Media(kind, Some(Document(Some(MaxMediaFileSizeBytes))), None);
            AcquireMedia(Some(atLimit), download).downloadAttempted
    ensures var overLimit := Media(kind, Some(Document(Some(MaxMediaFileSizeBytes + 1))), None);
            var a := AcquireMedia(Some(overLimit), download);
            !a.downloadAttempted && a.mediaType == Some(MediaTypeSkipped)
  {
  }

  /** A 25 MiB document is skipped with a reason naming both sizes to two decimals. */
  lemma SkipReasonFor25MiB()
    ensures SkipReason(25 * MiB) == "File too large (25.00MB > 20.00MB)"
  {
    MegabytesOf(25);
    MegabytesOf(20);
    assert MaxMediaFileSizeBytes == 20 * MiB;
    assert Megabytes(25 * MiB) == "25.00";
    assert Megabytes(MaxMediaFileSizeBytes) == "20.00";
  }

  /** Two-digit whole numbers of MiB: the two digits, then `.00`. */
  lemma MegabytesOf(k: nat)
    requires 10 <= k < 100
    ensures Megabytes(k * MiB) == [Digit(k / 10), Digit(k % 10), '.', '0', '0']
  {
    MegabytesWhole(k);
    assert NatToString(k) == NatToString(k / 10) + [Digit(k % 10)];
    assert NatToString(k / 10) == [Digit(k / 10)];
  }

  /**
   * The media of the three-message run: no media gives nothing; a 5 MiB photo is
   * downloaded and records its path; a 25 MiB document is not downloaded and
   * records the reason in place of a path.
   */
  lemma ThreeMessageMedia(path: string, download: DownloadOutcome)
    requires path != ""
    ensures AcquireMedia(None, download) == Acquisition(None, None, false)
    ensures var photo := Media(MessageMediaPhoto, None, Some(Photo(Some([PhotoSize(Some(5 * MiB))]))));
            AcquireMedia(Some(photo), DownloadReturns(Some(path))) == Acquisition(Some("photo"), Some(path), true)
    ensures var document := Media(MessageMediaDocument, Some(Document(Some(25 * MiB))), None);
            AcquireMedia(Some(document), download)
            == Acquisition(Some("skipped_too_large"), Some("File too large (25.00MB > 20.00MB)"), false)
  {
    SkipReasonFor25MiB();
    var sizes := [PhotoSize(Some(5 * MiB))];
    assert LargestPhotoSize(sizes) == 5 * MiB by {
      assert sizes[1..] == [];
    }
  }

  // ---------------------------------------------------------------------------
  // Message normalisation
  // ---------------------------------------------------------------------------

  /** An attribute that the object may lack (`hasattr`). */
  datatype Attr<T> = Missing | Has(value: T)

  /**
   * A message as the client delivers it. `replies` is None when `message.replies`
   * is falsy, else its `replies` count; `rawJson` stands for
   * `json.dumps(message.to_dict(), default=str)`.
   */
  datatype Message = Message(
    id: int,
    chatId: Option<int>,
    senderId: Option<int>,
    date: Option<int>,
    text: Option<string>,
    views: Attr<Option<int>>,
    forwards: Attr<Option<int>>,
    replies: Option<int>,
    media: Option<Media>,
    rawJson: string)

  /** The column list of the INSERT. */
  const InsertColumns: seq<string> :=
    ["id", "chat_id", "sender_id", "message_date", "message_text",
     "views", "forwards", "replies_count", "media_type", "media_path", "_file", "raw_message_json"]

  const InsertHead :=
    "INSERT INTO telegram_messages (id, chat_id, sender_id, message_date, message_text, "
    + "views, forwards, replies_count, media_type, media_path, _file, raw_message_json) VALUES ("
  const InsertConflict :=
    ") ON CONFLICT (id) DO UPDATE SET chat_id = EXCLUDED.chat_id, sender_id = EXCLUDED.sender_id, "
    + "message_date = EXCLUDED.message_date, message_text = EXCLUDED.message_text, "
    + "views = EXCLUDED.views, forwards = EXCLUDED.forwards, replies_count = EXCLUDED.replies_count, "
    + "media_type = EXCLUDED.media_type, media_path = EXCLUDED.media_path, _extracted_at = NOW(), "
    + "_file = EXCLUDED._file, raw_message_json = EXCLUDED.raw_message_json;"

  /** The INSERT ... ON CONFLICT (id) DO UPDATE statement, with its twelve placeholders. */
  const InsertMessageSql: Statement := [Verbatim(InsertHead)] + ParamList(12) + [Verbatim(InsertConflict)]

  function IntOrNull(v: Option<int>): Value
  {
    match v
    case None => Null
    case Some(n) => Int(n)
  }

  function TextOrNull(v: Option<string>): Value
  {
    match v
    case None => Null
    case Some(s) => Text(s)
  }

  /** `x if hasattr(message, 'x') else 0` */
  function CounterValue(c: Attr<Option<int>>): Value
  {
    match c
    case Missing => Int(0)
    case Has(v) => IntOrNull(v)
  }

  function SourceFile(channel: string): string
  {
    "telegram_channel_" + channel + ".json"
  }

  /** The `message_data` dictionary, as its (key, value) pairs in insertion order. */
  function MessageData(msg: Message, channel: string, a: Acquisition): (d: seq<(string, Value)>)
    ensures |d| == |InsertColumns|
    ensures forall i :: 0 <= i < |d| ==> d[i].0 == InsertColumns[i]
  {
    [ ("id", Int(msg.id)),
      ("chat_id", IntOrNull(msg.chatId)),
      ("sender_id", IntOrNull(msg.senderId)),
      ("message_date", if msg.date.Some? then Timestamp(msg.date.value) else Null),
      ("message_text", TextOrNull(msg.text)),
      ("views", CounterValue(msg.views)),
      ("forwards", CounterValue(msg.forwards)),
      ("replies_count", Int(msg.replies.GetOr(0))),
      ("media_type", TextOrNull(a.mediaType)),
      ("media_path", TextOrNull(a.mediaPath)),
      ("_file", Text(SourceFile(channel))),
      ("raw_message_json", Json(msg.rawJson)) ]
  }

  lemma InsertMessageSqlPlaceholders()
    ensures Placeholders(InsertMessageSql) == 12
  {
    TextBindsNothing(InsertHead, "");
    TextBindsNothing(InsertConflict, "");
    PlaceholdersAppend([Verbatim(InsertHead)], ParamList(12));
    PlaceholdersAppend([Verbatim(InsertHead)] + ParamList(12), [Verbatim(InsertConflict)]);
  }

  /** `list(message_data.values())` */
  function Values(d: seq<(string, Value)>): (vs: seq<Value>)
    ensures |vs| == |d| && forall i :: 0 <= i < |d| ==> vs[i] == d[i].1
  {
    if d == [] then [] else [d[0].1] + Values(d[1..])
  }

  lemma InsertColumnsDistinct()
    ensures Distinct(InsertColumns)
  {
  }

  /** The twelve keys of `message_data` line up with the twelve columns and the twelve placeholders. */
  lemma MessageDataAligned(msg: Message, channel: string, a: Acquisition)
    ensures var d := MessageData(msg, channel, a);
            && |Values(d)| == |InsertColumns| == Placeholders(InsertMessageSql)
            && forall i :: 0 <= i < |d| ==> d[i].0 == InsertColumns[i]
  {
    InsertMessageSqlPlaceholders();
  }

  /**
   * Binding the values positionally to the INSERT's column list stores every
   * value of `message_data` under the column of the same name.
   */
  lemma {:induction false} RowMatchesMessageData(msg: Message, channel: string, a: Acquisition, i: nat)
    requires i < |InsertColumns|
    ensures var d := MessageData(msg, channel, a);
            d[i].0 in Bind(InsertColumns, Values(d)) && Bind(InsertColumns, Values(d))[d[i].0] == d[i].1
  {
    var d := MessageData(msg, channel, a);
    InsertColumnsDistinct();
    BindAt(InsertColumns, Values(d), i);
  }

  /** Counters default to 0 when absent; a message with no replies object has 0 replies. */
  lemma MessageDataDefaults(msg: Message, channel: string, a: Acquisition)
    ensures var d := MessageData(msg, channel, a);
            && d[0].1 == Int(msg.id)
            && (msg.views.Missing? ==> d[5].1 == Int(0))
            && (msg.forwards.Missing? ==> d[6].1 == Int(0))
            && (msg.replies.None? ==> d[7].1 == Int(0))
            && (msg.replies.Some? ==> d[7].1 == Int(msg.replies.value))
            && d[8].1 == (if a.mediaType.Some? then Text(a.mediaType.value) else Null)
            && d[9].1 == (if a.mediaPath.Some? then Text(a.mediaPath.value) else Null)
            && d[10].1 == Text("telegram_channel_" + channel + ".json")
  {
  }

  // ---------------------------------------------------------------------------
  // The messages table and its upsert
  // ---------------------------------------------------------------------------

  type Row = map<string, Value>

  /** The store's verdict on one INSERT: committed at the store's clock `now`, or an error. */
  datatype StoreOutcome = Commits(now: int) | Fails

  /**
   * The statement commits: the store accepted it, there is one parameter per
   * column (and so per placeholder, InsertMessageSqlPlaceholders), and the
   * primary key is not NULL.
   */
  predicate Writes(data: seq<(string, Value)>, outcome: StoreOutcome)
  {
    var vals := Values(data);
    && outcome.Commits?
    && |vals| == |InsertColumns|
    && vals[0] != Null
  }

  /** The row written: each column its value, `_extracted_at` the store's `NOW()`. */
  function StoredRow(vals: seq<Value>, now: int): Row
    requires |vals| == |InsertColumns|
  {
    Bind(InsertColumns, vals)["_extracted_at" := Timestamp(now)]
  }

  /**
   * `INSERT ... ON CONFLICT (id) DO UPDATE`: a committed statement leaves exactly
   * one row under its id holding the new values in every column (last write
   * wins) and touches no other row; a failed one is rolled back.
   */
  function AfterInsert(rows: map<Value, Row>, data: seq<(string, Value)>, outcome: StoreOutcome): (r: map<Value, Row>)
    ensures !Writes(data, outcome) ==> r == rows
    ensures Writes(data, outcome) ==>
              var vals := Values(data);
              && r.Keys == rows.Keys + {vals[0]}
              && r[vals[0]] == StoredRow(vals, outcome.now)
              && forall k :: k in rows && k != vals[0] ==> r[k] == rows[k]
  {
    if Writes(data, outcome) then
      var vals := Values(data);
      rows[vals[0] := StoredRow(vals, outcome.now)]
    else rows
  }

  /** Writing the same message twice at the same time is the same as writing it once. */
  lemma UpsertIdempotent(rows: map<Value, Row>, data: seq<(string, Value)>, outcome: StoreOutcome)
    ensures AfterInsert(AfterInsert(rows, data, outcome), data, outcome) == AfterInsert(rows, data, outcome)
  {
  }

  /** Two committed writes of one id: the second one's values are what remain. */
  lemma UpsertLastWriteWins(rows: map<Value, Row>, first: seq<(string, Value)>, second: seq<(string, Value)>,
                            o1: StoreOutcome, o2: StoreOutcome)
    requires Writes(first, o1) && Writes(second, o2) && Values(first)[0] == Values(second)[0]
    ensures var r := AfterInsert(AfterInsert(rows, first, o1), second, o2);
            && r.Keys == rows.Keys + {Values(second)[0]}
            && r[Values(second)[0]] == StoredRow(Values(second), o2.now)
  {
  }

  /** The `telegram_messages` table, keyed on its `id` column. */
  class MessageStore {
    var rows: map<Value, Row>

    constructor ()
      ensures rows == map[]
    {
      rows := map[];
    }

    /** `insert_message`: runs the upsert; any error rolls back and is swallowed. */
    method InsertMessage(data: seq<(string, Value)>, outcome: StoreOutcome)
      modifies this
      ensures rows == AfterInsert(old(rows), data, outcome)
    {
      var vals := Values(data);
      InsertMessageSqlPlaceholders();
      if outcome.Fails? || |vals| != Placeholders(InsertMessageSql) || |vals| != |InsertColumns| {
        return;
      }
      var row := Bind(InsertColumns, vals);
      assert InsertColumns[0] == "id";
      InsertColumnsDistinct();
      BindAt(InsertColumns, vals, 0);
      var id := row["id"];
      if id == Null {
        return;
      }
      rows := rows[id := row["_extracted_at" := Timestamp(outcome.now)]];
    }
  }

  // ---------------------------------------------------------------------------
  // One channel
  // ---------------------------------------------------------------------------

  /** A delivered message with what its download and its INSERT do. */
  datatype FeedItem = FeedItem(message: Message, download: DownloadOutcome, store: StoreOutcome)

  /** The record built for one message. */
  function Normalize(item: FeedItem, channel: string): seq<(string, Value)>
  {
    MessageData(item.message, channel, AcquireMedia(item.message.media, item.download))
  }

  /** A normalised message is written exactly when its INSERT commits, under its own id. */
  lemma NormalizeWrites(item: FeedItem, channel: string)
    ensures Values(Normalize(item, channel))[0] == Int(item.message.id)
    ensures Writes(Normalize(item, channel), item.store) <==> item.store.Commits?
  {
    MessageDataAligned(item.message, channel, AcquireMedia(item.message.media, item.download));
  }

  /** The table after upserting `items` in order. */
  function Ingest(rows: map<Value, Row>, channel: string, items: seq<FeedItem>): map<Value, Row>
    decreases |items|
  {
    if items == [] then rows
    else
      var last := items[|items| - 1];
      AfterInsert(Ingest(rows, channel, items[..|items| - 1]), Normalize(last, channel), last.store)
  }

  /** Ingesting one more message of a batch is one more upsert. */
  lemma IngestPrefix(rows: map<Value, Row>, channel: string, batch: seq<FeedItem>, k: nat)
    requires k < |batch|
    ensures Ingest(rows, channel, batch[..k + 1])
            == AfterInsert(Ingest(rows, channel, batch[..k]), Normalize(batch[k], channel), batch[k].store)
  {
    assert batch[..k + 1][..k] == batch[..k];
  }

  /** One more message: its INSERT either commits its record under its id or changes nothing. */
  lemma IngestStep(rows: map<Value, Row>, channel: string, items: seq<FeedItem>)
    requires items != []
    ensures var n := |items| - 1;
            var last := items[n];
            var before := Ingest(rows, channel, items[..n]);
            var vals := Values(Normalize(last, channel));
            && |vals| == |InsertColumns|
            && (last.store.Commits? ==>
                  Ingest(rows, channel, items) == before[Int(last.message.id) := StoredRow(vals, last.store.now)])
            && (last.store.Fails? ==> Ingest(rows, channel, items) == before)
  {
    NormalizeWrites(items[|items| - 1], channel);
  }

  /** The ids of the messages whose INSERT commits. */
  function CommittedIds(items: seq<FeedItem>): set<Value>
  {
    set i | 0 <= i < |items| && items[i].store.Commits? :: Int(items[i].message.id)
  }

  lemma CommittedIdsSnoc(items: seq<FeedItem>)
    requires items != []
    ensures var n := |items| - 1;
            CommittedIds(items) ==
              CommittedIds(items[..n]) + (if items[n].store.Commits? then {Int(items[n].message.id)} else {})
  {
    var n := |items| - 1;
    assert forall i :: 0 <= i < n ==> items[..n][i] == items[i];
  }

  /**
   * Continue on error: after a run, the table holds its old rows plus one row
   * for every message whose INSERT committed, whatever failed around it.
   */
  lemma {:induction false} IngestKeys(rows: map<Value, Row>, channel: string, items: seq<FeedItem>)
    ensures Ingest(rows, channel, items).Keys == rows.Keys + CommittedIds(items)
  {
    if items != [] {
      IngestKeys(rows, channel, items[..|items| - 1]);
      IngestStep(rows, channel, items);
      CommittedIdsSnoc(items);
    }
  }

  /** A row not written by any committed message keeps its old contents. */
  lemma {:induction false} IngestUntouched(rows: map<Value, Row>, channel: string, items: seq<FeedItem>, k: Value)
    requires k in rows && k !in CommittedIds(items)
    ensures k in Ingest(rows, channel, items) && Ingest(rows, channel, items)[k] == rows[k]
  {
    if items != [] {
      var n := |items| - 1;
      CommittedIdsSnoc(items);
      IngestUntouched(rows, channel, items[..n], k);
      IngestStep(rows, channel, items);
    }
  }

  /** A row survives a message whose INSERT fails or writes another id. */
  lemma IngestKeepsRow(rows: map<Value, Row>, channel: string, items: seq<FeedItem>, k: Value, row: Row)
    requires items != []
    requires var before := Ingest(rows, channel, items[..|items| - 1]); k in before && before[k] == row
    requires items[|items| - 1].store.Commits? ==> Int(items[|items| - 1].message.id) != k
    ensures k in Ingest(rows, channel, items) && Ingest(rows, channel, items)[k] == row
  {
    IngestStep(rows, channel, items);
  }

  /** The row of an id is the record of the last committed message with that id. */
  lemma {:induction false} IngestLatest(rows: map<Value, Row>, channel: string, items: seq<FeedItem>, i: nat)
    requires i < |items| && items[i].store.Commits?
    requires forall j :: i < j < |items| && items[j].store.Commits? ==> items[j].message.id != items[i].message.id
    ensures var vals := Values(Normalize(items[i], channel));
            |vals| == |InsertColumns| &&
            Int(items[i].message.id) in Ingest(rows, channel, items) &&
            Ingest(rows, channel, items)[Int(items[i].message.id)] == StoredRow(vals, items[i].store.now)
  {
    var n := |items| - 1;
    if i == n {
      IngestStep(rows, channel, items);
    } else {
      var prefix := items[..n];
      assert prefix[i] == items[i];
      forall j | i < j < |prefix| && prefix[j].store.Commits?
        ensures prefix[j].message.id != prefix[i].message.id
      {
        assert prefix[j] == items[j];
      }
      IngestLatest(rows, channel, prefix, i);
      IngestKeepsRow(rows, channel, items, Int(items[i].message.id),
                     StoredRow(Values(Normalize(items[i], channel)), items[i].store.now));
    }
  }

  /** How one channel's run behaves: its store, its message history, and where the feed raises. */
  datatype ChannelFeed = ChannelFeed(dbReachable: bool, history: seq<FeedItem>, raisesAt: Option<nat>)

  /** `None` from `connect_db`; the loop ran to the end; or an exception escaped after `scraped` messages. */
  datatype ChannelOutcome = DbUnavailable | Finished(scraped: nat) | Raised(scraped: nat)

  /** The messages `iter_messages(channel, limit=limit)` yields. */
  function Requested(feed: ChannelFeed, limit: nat): (batch: seq<FeedItem>)
    ensures |batch| == if |feed.history| <= limit then |feed.history| else limit
    ensures batch == feed.history[..|batch|]
  {
    if |feed.history| <= limit then feed.history else feed.history[..limit]
  }

  predicate RaisesWithin(feed: ChannelFeed, limit: nat)
  {
    feed.raisesAt.Some? && feed.raisesAt.value < |Requested(feed, limit)|
  }

  /** The messages that reach `insert_message`. */
  function Delivered(feed: ChannelFeed, limit: nat): seq<FeedItem>
  {
    if !feed.dbReachable then []
    else if RaisesWithin(feed, limit) then Requested(feed, limit)[..feed.raisesAt.value]
    else Requested(feed, limit)
  }

  /**
   * `scrape_channel`: with no connection nothing is scraped; otherwise each
   * message is gated, normalised and upserted in delivery order, and counted
   * whether or not its INSERT committed.
   */
  method ScrapeChannel(store: MessageStore, channel: string, feed: ChannelFeed, limit: nat)
    returns (outcome: ChannelOutcome)
    modifies store
    ensures !feed.dbReachable ==> outcome == DbUnavailable
    ensures feed.dbReachable && RaisesWithin(feed, limit) ==> outcome == Raised(feed.raisesAt.value)
    ensures feed.dbReachable && !RaisesWithin(feed, limit) ==> outcome == Finished(|Requested(feed, limit)|)
    ensures store.rows == Ingest(old(store.rows), channel, Delivered(feed, limit))
  {
    if !feed.dbReachable {
      return DbUnavailable;
    }
    var batch := Requested(feed, limit);
    var scraped := 0;
    while scraped < |batch|
      invariant 0 <= scraped <= |batch|
      invariant feed.raisesAt.Some? ==> scraped <= feed.raisesAt.value
      invariant store.rows == Ingest(old(store.rows), channel, batch[..scraped])
    {
      if feed.raisesAt == Some(scraped) {
        assert RaisesWithin(feed, limit);
        assert Delivered(feed, limit) == batch[..scraped];
        return Raised(scraped);
      }
      var item := batch[scraped];
      var data := Normalize(item, channel);
      store.InsertMessage(data, item.store);
      IngestPrefix(old(store.rows), channel, batch, scraped);
      scraped := scraped + 1;
    }
    assert !RaisesWithin(feed, limit);
    assert batch[..scraped] == batch == Delivered(feed, limit);
    return Finished(scraped);
  }

  // ---------------------------------------------------------------------------
  // All channels
  // ---------------------------------------------------------------------------

  const ChannelsToScrape: seq<string> := ["lobelia4cosmetics", "tikvahpharma", "who_news"]
  const MessagesLimitPerChannel: nat := 100

  /** The table after scraping `channels` one after another. */
  function ScrapeAll(rows: map<Value, Row>, channels: seq<string>, feedOf: string -> ChannelFeed, limit: nat)
    : map<Value, Row>
    decreases |channels|
  {
    if channels == [] then rows
    else
      var last := channels[|channels| - 1];
      Ingest(ScrapeAll(rows, channels[..|channels| - 1], feedOf, limit), last, Delivered(feedOf(last), limit))
  }

  function AllCommittedIds(channels: seq<string>, feedOf: string -> ChannelFeed, limit: nat): set<Value>
    decreases |channels|
  {
    if channels == [] then {}
    else
      var last := channels[|channels| - 1];
      AllCommittedIds(channels[..|channels| - 1], feedOf, limit) + CommittedIds(Delivered(feedOf(last), limit))
  }

  /** The table holds every committed message of every channel, whatever the other channels did. */
  lemma {:induction false} ScrapeAllKeys(rows: map<Value, Row>, channels: seq<string>, feedOf: string -> ChannelFeed,
                                         limit: nat)
    ensures ScrapeAll(rows, channels, feedOf, limit).Keys == rows.Keys + AllCommittedIds(channels, feedOf, limit)
  {
    if channels != [] {
      var last := channels[|channels| - 1];
      ScrapeAllKeys(rows, channels[..|channels| - 1], feedOf, limit);
      IngestKeys(ScrapeAll(rows, channels[..|channels| - 1], feedOf, limit), last, Delivered(feedOf(last), limit));
    }
  }

  /** A row that no channel's committed message writes keeps its old contents. */
  lemma {:induction false} ScrapeAllUntouched(rows: map<Value, Row>, channels: seq<string>,
                                              feedOf: string -> ChannelFeed, limit: nat, k: Value)
    requires k in rows && k !in AllCommittedIds(channels, feedOf, limit)
    ensures var after := ScrapeAll(rows, channels, feedOf, limit); k in after && after[k] == rows[k]
  {
    if channels != [] {
      var last := channels[|channels| - 1];
      ScrapeAllUntouched(rows, channels[..|channels| - 1], feedOf, limit, k);
      IngestUntouched(ScrapeAll(rows, channels[..|channels| - 1], feedOf, limit), last,
                      Delivered(feedOf(last), limit), k);
    }
  }

  /**
   * Across channels, taken in list order, the row of an id is the record of the
   * last committed message with that id: message `i` of channel `c` commits, no
   * later message of that channel commits the same id, and no later channel
   * commits it at all. Ids are not qualified by channel, so a later channel's
   * message replaces an earlier channel's row with the same id.
   */
  lemma {:induction false} ScrapeAllLatest(rows: map<Value, Row>, channels: seq<string>,
                                           feedOf: string -> ChannelFeed, limit: nat, c: nat, i: nat)
    requires c < |channels|
    requires var items := Delivered(feedOf(channels[c]), limit);
             && i < |items| && items[i].store.Commits?
             && (forall j :: i < j < |items| && items[j].store.Commits? ==>
                   items[j].message.id != items[i].message.id)
    requires forall d :: c < d < |channels| ==>
               Int(Delivered(feedOf(channels[c]), limit)[i].message.id)
                 !in CommittedIds(Delivered(feedOf(channels[d]), limit))
    ensures var item := Delivered(feedOf(channels[c]), limit)[i];
            var after := ScrapeAll(rows, channels, feedOf, limit);
            && Int(item.message.id) in after
            && after[Int(item.message.id)] == StoredRow(Values(Normalize(item, channels[c])), item.store.now)
  {
    var n := |channels| - 1;
    var last := channels[n];
    var prefix := channels[..n];
    var item := Delivered(feedOf(channels[c]), limit)[i];
    if c == n {
      IngestLatest(ScrapeAll(rows, prefix, feedOf, limit), last, Delivered(feedOf(last), limit), i);
    } else {
      assert prefix[c] == channels[c];
      forall d | c < d < |prefix|
        ensures Int(item.message.id) !in CommittedIds(Delivered(feedOf(prefix[d]), limit))
      {
        assert prefix[d] == channels[d];
      }
      ScrapeAllLatest(rows, prefix, feedOf, limit, c, i);
      var before := ScrapeAll(rows, prefix, feedOf, limit);
      IngestUntouched(before, last, Delivered(feedOf(last), limit), Int(item.message.id));
    }
  }

  /**
   * `main_scraper_task`: every channel of the list is scraped in turn; an
   * exception in one is caught and the next one still runs.
   */
  method MainScraperTask(store: MessageStore, feedOf: string -> ChannelFeed) returns (outcomes: seq<ChannelOutcome>)
    modifies store
    ensures |outcomes| == |ChannelsToScrape|
    ensures forall i :: 0 <= i < |ChannelsToScrape| ==>
              (outcomes[i].DbUnavailable? <==> !feedOf(ChannelsToScrape[i]).dbReachable)
    ensures store.rows == ScrapeAll(old(store.rows), ChannelsToScrape, feedOf, MessagesLimitPerChannel)
  {
    outcomes := [];
    var i := 0;
    while i < |ChannelsToScrape|
      invariant 0 <= i <= |ChannelsToScrape| && |outcomes| == i
      invariant forall j :: 0 <= j < i ==>
                  (outcomes[j].DbUnavailable? <==> !feedOf(ChannelsToScrape[j]).dbReachable)
      invariant store.rows == ScrapeAll(old(store.rows), ChannelsToScrape[..i], feedOf, MessagesLimitPerChannel)
    {
      var channel := ChannelsToScrape[i];
      var outcome := ScrapeChannel(store, channel, feedOf(channel), MessagesLimitPerChannel);
      outcomes := outcomes + [outcome];
      assert ChannelsToScrape[..i + 1][..i] == ChannelsToScrape[..i];
      i := i + 1;
    }
    assert ChannelsToScrape[..i] == ChannelsToScrape;
  }
}
