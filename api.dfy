/**
 * The read API's request validation and query assembly: `limit` is checked
 * before any query runs, then the statement grows by one clause per active
 * filter, each clause with one placeholder and its parameter appended in the
 * same order, and always ends with LIMIT and OFFSET.
 */
module Api {
  import opened Wrappers
  import opened Sql

  datatype HttpError = HttpError(status: nat, detail: string)

  /** Either the request is refused, or this statement runs with these parameters. */
  datatype Prepared = Rejected(error: HttpError) | Execute(query: Statement, params: seq<Value>)

  const LimitError := HttpError(400, "Limit must be between 1 and 100.")

  predicate LimitInRange(limit: int)
  {
    1 <= limit <= 100
  }

  /** The ILIKE pattern `f"%{s}%"`. */
  function Like(s: string): string
  {
    "%" + s + "%"
  }

  // ---------------------------------------------------------------------------
  // Clauses
  // ---------------------------------------------------------------------------

  /** `s`, followed by `t` when `cond` holds: an `if` that grows a list. */
  function AppendIf<T>(s: seq<T>, cond: bool, t: seq<T>): seq<T>
  {
    if cond then s + t else s
  }

  /** A filter clause: its SQL text followed by one placeholder. */
  function Filter(text: string): Statement
  {
    [Verbatim(text), Param]
  }

  /** The closing clause: `ORDER BY ... LIMIT %s OFFSET %s;`. */
  function Page(orderBy: string): Statement
  {
    [Verbatim(orderBy), Param, Verbatim(" OFFSET "), Param, Verbatim(";")]
  }

  /** A filter clause binds its parameter to its own SQL text. */
  lemma FilterBinds(text: string, x: Value, context: string)
    ensures Placeholders(Filter(text)) == 1
    ensures Bindings(Filter(text), [x], context) == [(text, x)]
  {
    var q := Filter(text);
    assert q[1..] == [Param] && q[1..][1..] == [];
    assert Placeholders(q[1..][1..]) == 0;
    assert Placeholders(q[1..]) == 1;
  }

  /** The closing clause binds the limit after LIMIT and the offset after OFFSET. */
  lemma PageBinds(orderBy: string, limit: Value, offset: Value, context: string)
    ensures Placeholders(Page(orderBy)) == 2
    ensures Bindings(Page(orderBy), [limit, offset], context) == [(orderBy, limit), (" OFFSET ", offset)]
  {
    var end: Statement := [Verbatim(";")];
    TextBindsNothing(";", context);
    FilterBinds(orderBy, limit, context);
    FilterBinds(" OFFSET ", offset, context);
    BindingsAppend(Filter(" OFFSET "), [offset], end, [], context);
    assert Filter(" OFFSET ") + end == [Verbatim(" OFFSET "), Param, Verbatim(";")];
    BindingsAppend(Filter(orderBy), [limit], [Verbatim(" OFFSET "), Param, Verbatim(";")], [offset], context);
    assert Filter(orderBy) + [Verbatim(" OFFSET "), Param, Verbatim(";")] == Page(orderBy);
    assert [limit] + [offset] == [limit, offset];
  }

  /**
   * One filter: its clause goes on the end of the statement and its parameter on
   * the end of the list, so the new placeholder is bound to it.
   */
  method AppendFilter(query: Statement, params: seq<Value>, text: string, x: Value)
    returns (query': Statement, params': seq<Value>)
    requires Placeholders(query) == |params|
    ensures query' == query + Filter(text) && params' == params + [x]
    ensures Placeholders(query') == |params'|
    ensures Bindings(query', params', "") == Bindings(query, params, "") + [(text, x)]
  {
    FilterBinds(text, x, "");
    BindingsAppend(query, params, Filter(text), [x], "");
    query' := query + Filter(text);
    params' := params + [x];
  }

  /** `if cond: query += text; params.append(x)` */
  method AppendFilterIf(query: Statement, params: seq<Value>, cond: bool, text: string, x: Value)
    returns (query': Statement, params': seq<Value>)
    requires Placeholders(query) == |params|
    ensures query' == AppendIf(query, cond, Filter(text)) && params' == AppendIf(params, cond, [x])
    ensures Placeholders(query') == |params'|
    ensures Bindings(query', params', "") == AppendIf(Bindings(query, params, ""), cond, [(text, x)])
  {
    if cond {
      query', params' := AppendFilter(query, params, text, x);
    } else {
      query', params' := query, params;
    }
  }

  /** The closing clause, bound to the limit and the offset. */
  method AppendPage(query: Statement, params: seq<Value>, orderBy: string, limit: int, offset: int)
    returns (query': Statement, params': seq<Value>)
    requires Placeholders(query) == |params|
    ensures query' == query + Page(orderBy) && params' == params + [Int(limit), Int(offset)]
    ensures Placeholders(query') == |params'|
    ensures Bindings(query', params', "")
            == Bindings(query, params, "") + [(orderBy, Int(limit)), (" OFFSET ", Int(offset))]
  {
    PageBinds(orderBy, Int(limit), Int(offset), "");
    BindingsAppend(query, params, Page(orderBy), [Int(limit), Int(offset)], "");
    query' := query + Page(orderBy);
    params' := params + [Int(limit), Int(offset)];
  }

  // ---------------------------------------------------------------------------
  // GET /messages
  // ---------------------------------------------------------------------------

  const MessagesSelectSql :=
    "SELECT message_id, channel_username, message_text, message_date, views_count, "
    + "forwards_count, link, has_media FROM fct_messages WHERE 1=1"
  const MessagesChannelSql := " AND channel_username ILIKE "
  const MinViewsSql := " AND views_count >= "
  const MessagesOrderSql := " ORDER BY message_date DESC LIMIT "

  /**
   * `get_messages`: a limit outside [1, 100] is refused with 400 whatever the
   * offset; otherwise the channel clause is added exactly when the name is
   * non-empty and the views clause exactly when `min_views` is given (0
   * included), in that order, each placeholder bound to its own clause's
   * parameter, and `[limit, offset]` last.
   */
  method GetMessages(limit: int, offset: int, channelUsername: Option<string>, minViews: Option<int>)
    returns (r: Prepared)
    ensures r.Rejected? <==> !LimitInRange(limit)
    ensures r.Rejected? ==> r.error == LimitError
    ensures r.Execute? ==>
              && Placeholders(r.query) == |r.params| >= 2
              && r.params[|r.params| - 2..] == [Int(limit), Int(offset)]
              && r.query == AppendIf(AppendIf([Verbatim(MessagesSelectSql)],
                                              Truthy(channelUsername), Filter(MessagesChannelSql)),
                                     minViews.Some?, Filter(MinViewsSql))
                            + Page(MessagesOrderSql)
    ensures r.Execute? ==>
              Bindings(r.query, r.params, "")
              == AppendIf(AppendIf([], Truthy(channelUsername), [(MessagesChannelSql, Text(Like(channelUsername.GetOr(""))))]),
                          minViews.Some?, [(MinViewsSql, Int(minViews.GetOr(0)))])
                 + [(MessagesOrderSql, Int(limit)), (" OFFSET ", Int(offset))]
  {
    if !LimitInRange(limit) {
      return Rejected(LimitError);
    }
    var query := [Verbatim(MessagesSelectSql)];
    var params: seq<Value> := [];
    TextBindsNothing(MessagesSelectSql, "");
    query, params := AppendFilterIf(query, params, Truthy(channelUsername), MessagesChannelSql,
                                    Text(Like(channelUsername.GetOr(""))));
    query, params := AppendFilterIf(query, params, minViews.Some?, MinViewsSql, Int(minViews.GetOr(0)));
    query, params := AppendPage(query, params, MessagesOrderSql, limit, offset);
    BindingsValues(query, params, "", Bindings(query, params, "")[..|params| - 2],
                   [(MessagesOrderSql, Int(limit)), (" OFFSET ", Int(offset))]);
    return Execute(query, params);
  }

  // ---------------------------------------------------------------------------
  // GET /image_detections
  // ---------------------------------------------------------------------------

  const DetectionsSelectSql :=
    "SELECT fid.image_detection_id, fid.message_id, fid.detected_message_date, fid.channel_username, "
    + "fid.image_path, fid.detected_object_class, fid.confidence_score, fid.box_xmin, fid.box_ymin, "
    + "fid.box_xmax, fid.box_ymax, fid.detection_timestamp FROM fct_image_detections fid WHERE 1=1"
  const ObjectClassSql := " AND fid.detected_object_class ILIKE "
  const MinConfidenceSql := " AND fid.confidence_score >= "
  const DetectionsChannelSql := " AND fid.channel_username ILIKE "
  const DetectionsOrderSql := " ORDER BY fid.detection_timestamp DESC LIMIT "

  /**
   * `get_image_detections`: the same limit check; then the object-class,
   * confidence (only above 0) and channel clauses in that order, each
   * placeholder bound to its own clause's parameter, and `[limit, offset]` last.
   */
  method GetImageDetections(limit: int, offset: int, objectClass: Option<string>, minConfidence: real,
                            channelUsername: Option<string>)
    returns (r: Prepared)
    ensures r.Rejected? <==> !LimitInRange(limit)
    ensures r.Rejected? ==> r.error == LimitError
    ensures r.Execute? ==>
              && Placeholders(r.query) == |r.params| >= 2
              && r.params[|r.params| - 2..] == [Int(limit), Int(offset)]
              && r.query == AppendIf(AppendIf(AppendIf([Verbatim(DetectionsSelectSql)],
                                                       Truthy(objectClass), Filter(ObjectClassSql)),
                                              minConfidence > 0.0, Filter(MinConfidenceSql)),
                                     Truthy(channelUsername), Filter(DetectionsChannelSql))
                            + Page(DetectionsOrderSql)
    ensures r.Execute? ==>
              Bindings(r.query, r.params, "")
              == AppendIf(AppendIf(AppendIf([], Truthy(objectClass), [(ObjectClassSql, Text(Like(objectClass.GetOr(""))))]),
                                   minConfidence > 0.0, [(MinConfidenceSql, Real(minConfidence))]),
                          Truthy(channelUsername), [(DetectionsChannelSql, Text(Like(channelUsername.GetOr(""))))])
                 + [(DetectionsOrderSql, Int(limit)), (" OFFSET ", Int(offset))]
  {
    if !LimitInRange(limit) {
      return Rejected(LimitError);
    }
    var query := [Verbatim(DetectionsSelectSql)];
    var params: seq<Value> := [];
    TextBindsNothing(DetectionsSelectSql, "");
    query, params :=
      AppendFilterIf(query, params, Truthy(objectClass), ObjectClassSql, Text(Like(objectClass.GetOr(""))));
    query, params := AppendFilterIf(query, params, minConfidence > 0.0, MinConfidenceSql, Real(minConfidence));
    query, params :=
      AppendFilterIf(query, params, Truthy(channelUsername), DetectionsChannelSql, Text(Like(channelUsername.GetOr(""))));
    query, params := AppendPage(query, params, DetectionsOrderSql, limit, offset);
    BindingsValues(query, params, "", Bindings(query, params, "")[..|params| - 2],
                   [(DetectionsOrderSql, Int(limit)), (" OFFSET ", Int(offset))]);
    return Execute(query, params);
  }
}
