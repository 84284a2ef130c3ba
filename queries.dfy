/**
 * The three query handlers: monitor errors, monitor telemetry and status
 * page changes. Each decodes its query, fetches the records, and turns
 * them into graph frames and, unless the query comes from alerting,
 * table frames.
 *
 * JSON decoding, the RFC 3339 parser, strToTime and the clock are
 * parameters (an Env); the remote API is a pair of functions (an Api).
 */
module Queries {
  import opened Wrappers
  import opened GoRuntime
  import opened Grafana
  import opened Records
  import opened PluginTypes
  import opened Pagination
  import opened FrameBuilder

  /** durationThreeMonths: 3 × 30 × 24 hours. */
  const DurationThreeMonths: Duration := 3 * 30 * 24 * Hour

  /** backend.DataQuery: the query's RefID, its undecoded JSON and its time range. */
  datatype DataQuery = DataQuery(refID: string, json: string, timeRange: TimeRange)

  /** The request parameters of the telemetry endpoint, which is not paginated. */
  datatype TelemetryParams = TelemetryParams(
    from: int, to: int, monitors: seq<string>, includeShared: bool,
    checks: Option<seq<string>>, instances: Option<seq<string>>)

  /** A telemetry call: a transport error, or a response whose 200 body may be missing. */
  datatype TelemetryResult = TelemetryError(err: Error) | TelemetryResponse(body: Option<seq<Record>>)

  /** The remote API: the two paginated endpoints and the telemetry endpoint. */
  datatype Api = Api(pages: Client, telemetry: TelemetryParams -> TelemetryResult)

  /** Everything the handlers take from libraries and the environment. */
  datatype Env = Env(
    decodeModel: string -> Result<QueryModel, Error>,
    decodeTelemetry: string -> Result<TelemetryQuery, Error>,
    parseRFC3339: string -> Option<int>,
    strToTime: string -> int,
    now: int,
    outsideBoundsMessage: string)

  /** The endpoints answer with records of their own kind. */
  ghost predicate TypedApi(api: Api) {
    && TypedPages(api.pages)
    && forall p: TelemetryParams :: api.telemetry(p).TelemetryResponse? && api.telemetry(p).body.Some? ==>
         AllOfKind(api.telemetry(p).body.value, TelemetryKind)
  }

  /**
   * ensureTelemetryRequestWithinLast90Days: telemetry may only be asked
   * for from 90 days before now onwards.
   */
  function EnsureTelemetryRequestWithinLast90Days(from: int, now: int, message: string): (r: Option<Error>)
    ensures r.Some? <==> from < now - DurationThreeMonths
    ensures r.Some? ==> Is(r.value, TelemetryRequestedOutsideBounds) && r.value.message == message
  {
    var threeMonthsAgo := now - DurationThreeMonths;
    if from < threeMonthsAgo then Some(Error(message, {TelemetryRequestedOutsideBounds})) else None
  }

  /** 89 days back is accepted, 91 days back is refused, and exactly 90 days back is still accepted. */
  lemma TelemetryWindowExamples(now: int, message: string)
    ensures EnsureTelemetryRequestWithinLast90Days(now - 89 * 24 * Hour, now, message).None?
    ensures EnsureTelemetryRequestWithinLast90Days(now - 91 * 24 * Hour, now, message).Some?
    ensures EnsureTelemetryRequestWithinLast90Days(now - 90 * 24 * Hour, now, message).None?
    ensures EnsureTelemetryRequestWithinLast90Days(now - 90 * 24 * Hour - 1, now, message).Some?
  {
  }

  /** The later the start, the more surely it is accepted. */
  lemma TelemetryWindowMonotone(from: int, from': int, now: int, message: string)
    requires from <= from'
    requires EnsureTelemetryRequestWithinLast90Days(from, now, message).None?
    ensures EnsureTelemetryRequestWithinLast90Days(from', now, message).None?
  {
  }

  /** The response to a query whose JSON does not decode. */
  function DecodeError(e: Error): DataResponse {
    ErrDataResponse(StatusBadRequest, "json unmarshal: " + e.message)
  }

  /**
   * The key orders in which a handler lists its frame maps: every graph
   * key once, then every table key once unless the query is from alerting.
   */
  ghost predicate OrdersEnumerate(rs: seq<Record>, kind: Kind, parse: string -> Option<int>, fromAlerting: bool,
                                  graphOrder: seq<string>, tableOrder: seq<string>)
  {
    && AllOfKind(rs, kind)
    && EnumeratesKeys(graphOrder, Frames(GraphLayout, kind, rs, parse))
    && (if fromAlerting then tableOrder == [] else EnumeratesKeys(tableOrder, Frames(TableLayout, kind, rs, parse)))
  }

  /** The frames a handler returns for the records rs, listed in the given key orders. */
  ghost function FramesInOrder(rs: seq<Record>, kind: Kind, parse: string -> Option<int>, fromAlerting: bool,
                               graphOrder: seq<string>, tableOrder: seq<string>): seq<Frame>
    requires OrdersEnumerate(rs, kind, parse, fromAlerting, graphOrder, tableOrder)
  {
    InOrder(Frames(GraphLayout, kind, rs, parse), graphOrder) + InOrder(Frames(TableLayout, kind, rs, parse), tableOrder)
  }

  /** The response to fetched records: none when nothing was fetched, else their frames. */
  ghost predicate FramesResponse(res: DataResponse, rs: seq<Record>, kind: Kind, parse: string -> Option<int>,
                                 fromAlerting: bool, graphOrder: seq<string>, tableOrder: seq<string>)
  {
    if rs == [] then res == EmptyResponse
    else
      && OrdersEnumerate(rs, kind, parse, fromAlerting, graphOrder, tableOrder)
      && res == DataResponse(FramesInOrder(rs, kind, parse, fromAlerting, graphOrder, tableOrder), None)
  }

  /**
   * What QueryMonitorErrors answers: a decoding error as a bad request, a
   * fetch error with an empty response, and otherwise the frames of the
   * merged errors.
   */
  ghost predicate ErrorsOutcome(q: DataQuery, api: Api, env: Env, res: DataResponse, err: Option<Error>,
                                graphOrder: seq<string>, tableOrder: seq<string>)
  {
    match env.decodeTelemetry(q.json)
    case Failure(e) => res == DecodeError(e) && err == Some(e)
    case Success(tq) =>
      match MonitorErrorsFetch(api.pages, tq, q.timeRange, env.strToTime)
      case Failure(e) => res == EmptyResponse && err == Some(e)
      case Success(rs) =>
        err == None && FramesResponse(res, rs, ErrorKind, env.parseRFC3339, tq.fromAlerting, graphOrder, tableOrder)
  }

  /** QueryMonitorErrors. */
  method QueryMonitorErrors(q: DataQuery, api: Api, env: Env)
    returns (res: DataResponse, err: Option<Error>, ghost graphOrder: seq<string>, ghost tableOrder: seq<string>)
    requires TypedApi(api)
    ensures ErrorsOutcome(q, api, env, res, err, graphOrder, tableOrder)
  {
    graphOrder, tableOrder := [], [];
    var decoded := env.decodeTelemetry(q.json);
    if decoded.Failure? {
      return DecodeError(decoded.error), Some(decoded.error), [], [];
    }
    var monitorTelemetryQuery := decoded.value;

    var fetched := FetchAllMonitorErrors(api.pages, monitorTelemetryQuery, q.timeRange, env.strToTime);
    if fetched.Failure? {
      return EmptyResponse, Some(fetched.error), [], [];
    }
    var responses := fetched.value;
    if |responses| == 0 {
      return EmptyResponse, None, [], [];
    }

    MergedErrorsOfKind(api.pages, monitorTelemetryQuery, q.timeRange, env.strToTime);
    var graphFrameMap, tableFrameMap := BuildFrameMaps(responses, ErrorKind, env.parseRFC3339);
    var frames;
    frames, graphOrder, tableOrder := CollectFrames(graphFrameMap, tableFrameMap, monitorTelemetryQuery.fromAlerting);
    return DataResponse(frames, None), None, graphOrder, tableOrder;
  }

  /** The telemetry request of a query: empty check and instance filters are dropped. */
  function TelemetryRequest(tq: TelemetryQuery, tr: TimeRange): (p: TelemetryParams)
    ensures p.from == tr.from && p.to == tr.to && p.monitors == tq.monitors && p.includeShared == tq.includeShared
    ensures p.checks == NilIfEmpty(tq.checks) && p.instances == NilIfEmpty(tq.instances)
  {
    TelemetryParams(tr.from, tr.to, tq.monitors, tq.includeShared, NilIfEmpty(tq.checks), NilIfEmpty(tq.instances))
  }

  /** The telemetry endpoint answers this query with a body (the body is dereferenced unchecked). */
  ghost predicate TelemetryBodyPresent(q: DataQuery, api: Api, env: Env) {
    env.decodeTelemetry(q.json).Success? ==>
      var r := api.telemetry(TelemetryRequest(env.decodeTelemetry(q.json).value, q.timeRange));
      r.TelemetryResponse? ==> r.body.Some?
  }

  /**
   * What QueryMonitorTelemetry answers: a range starting more than 90 days
   * ago is refused before anything is decoded or fetched; then as the
   * errors handler, over a single unpaginated call.
   */
  ghost predicate TelemetryOutcome(q: DataQuery, api: Api, env: Env, res: DataResponse, err: Option<Error>,
                                   graphOrder: seq<string>, tableOrder: seq<string>)
  {
    var bounds := EnsureTelemetryRequestWithinLast90Days(q.timeRange.from, env.now, env.outsideBoundsMessage);
    if bounds.Some? then res == ErrDataResponse(StatusBadRequest, bounds.value.message) && err == bounds
    else
      match env.decodeTelemetry(q.json)
      case Failure(e) => res == DecodeError(e) && err == Some(e)
      case Success(tq) =>
        match api.telemetry(TelemetryRequest(tq, q.timeRange))
        case TelemetryError(e) => res == EmptyResponse && err == Some(e)
        case TelemetryResponse(body) =>
          && body.Some? && err == None
          && FramesResponse(res, body.value, TelemetryKind, env.parseRFC3339, tq.fromAlerting, graphOrder, tableOrder)
  }

  /** QueryMonitorTelemetry. */
  method QueryMonitorTelemetry(q: DataQuery, api: Api, env: Env)
    returns (res: DataResponse, err: Option<Error>, ghost graphOrder: seq<string>, ghost tableOrder: seq<string>)
    requires TypedApi(api)
    requires TelemetryBodyPresent(q, api, env)
    ensures TelemetryOutcome(q, api, env, res, err, graphOrder, tableOrder)
  {
    graphOrder, tableOrder := [], [];
    var bounds := EnsureTelemetryRequestWithinLast90Days(q.timeRange.from, env.now, env.outsideBoundsMessage);
    if bounds.Some? {
      return ErrDataResponse(StatusBadRequest, bounds.value.message), bounds, [], [];
    }

    var decoded := env.decodeTelemetry(q.json);
    if decoded.Failure? {
      return DecodeError(decoded.error), Some(decoded.error), [], [];
    }
    var monitorTelemetryQuery := decoded.value;

    var params := TelemetryRequest(monitorTelemetryQuery, q.timeRange);
    var resp := api.telemetry(params);
    if resp.TelemetryError? {
      return EmptyResponse, Some(resp.err), [], [];
    }
    if |resp.body.value| == 0 {
      return EmptyResponse, None, [], [];
    }
    var responses := resp.body.value;

    var graphFrameMap, tableFrameMap := BuildFrameMaps(responses, TelemetryKind, env.parseRFC3339);
    var frames;
    frames, graphOrder, tableOrder := CollectFrames(graphFrameMap, tableFrameMap, monitorTelemetryQuery.fromAlerting);
    return DataResponse(frames, None), None, graphOrder, tableOrder;
  }

  /** fetchAllStatusPageMonitor as a function of its inputs. */
  function StatusPageFetch(client: Client, tq: TelemetryQuery, tr: TimeRange): Result<seq<Record>, Error> {
    var s := Stream(client, StatusPageStart(tq, tr), MaxPageCount);
    if s.err.Some? then Failure(s.err.value) else Success(s.entries)
  }

  /** Every page of the status changes of this query has a body (each is dereferenced unchecked). */
  ghost predicate StatusBodiesPresent(q: DataQuery, api: Api, env: Env) {
    env.decodeTelemetry(q.json).Success? ==>
      BodiesPresent(api.pages, StatusPageStart(env.decodeTelemetry(q.json).value, q.timeRange), MaxPageCount)
  }

  /** Each frame with the status mappings on its non-time fields. */
  function MappedFrames(frames: seq<Frame>): (r: seq<Frame>)
    ensures |r| == |frames| && forall i | 0 <= i < |frames| :: r[i] == WithStatusMappings(frames[i])
  {
    seq(|frames|, i requires 0 <= i < |frames| => WithStatusMappings(frames[i]))
  }

  /**
   * What QueryMonitorStatusPageChanges answers: as the errors handler, over
   * the unsorted status changes, with the 0/1/2 mappings on every field
   * but the time.
   */
  ghost predicate StatusOutcome(q: DataQuery, api: Api, env: Env, res: DataResponse, err: Option<Error>,
                                graphOrder: seq<string>, tableOrder: seq<string>)
  {
    match env.decodeTelemetry(q.json)
    case Failure(e) => res == DecodeError(e) && err == Some(e)
    case Success(tq) =>
      match StatusPageFetch(api.pages, tq, q.timeRange)
      case Failure(e) => res == EmptyResponse && err == Some(e)
      case Success(rs) =>
        && err == None
        && (if rs == [] then res == EmptyResponse
            else
              && OrdersEnumerate(rs, StatusKind, env.parseRFC3339, tq.fromAlerting, graphOrder, tableOrder)
              && res == DataResponse(
                   MappedFrames(FramesInOrder(rs, StatusKind, env.parseRFC3339, tq.fromAlerting, graphOrder, tableOrder)),
                   None))
  }

  /** The status changes of a typed client are all status page component changes. */
  lemma StatusChangesOfKind(client: Client, tq: TelemetryQuery, tr: TimeRange)
    requires TypedPages(client)
    requires StatusPageFetch(client, tq, tr).Success?
    ensures AllOfKind(StatusPageFetch(client, tq, tr).value, StatusKind)
  {
    StreamOfKind(client, StatusPageStart(tq, tr), MaxPageCount);
  }

  /** QueryMonitorStatusPageChanges. */
  method QueryMonitorStatusPageChanges(q: DataQuery, api: Api, env: Env)
    returns (res: DataResponse, err: Option<Error>, ghost graphOrder: seq<string>, ghost tableOrder: seq<string>)
    requires TypedApi(api)
    requires StatusBodiesPresent(q, api, env)
    ensures StatusOutcome(q, api, env, res, err, graphOrder, tableOrder)
  {
    graphOrder, tableOrder := [], [];
    var decoded := env.decodeTelemetry(q.json);
    if decoded.Failure? {
      return DecodeError(decoded.error), Some(decoded.error), [], [];
    }
    var monitorTelemetryQuery := decoded.value;

    var fetched := FetchAllStatusPageMonitor(api.pages, monitorTelemetryQuery, q.timeRange);
    if fetched.Failure? {
      return EmptyResponse, Some(fetched.error), [], [];
    }
    var responses := fetched.value;
    if |responses| == 0 {
      return EmptyResponse, None, [], [];
    }

    StatusChangesOfKind(api.pages, monitorTelemetryQuery, q.timeRange);
    var graphFrameMap, tableFrameMap := BuildFrameMaps(responses, StatusKind, env.parseRFC3339);
    var frames;
    frames, graphOrder, tableOrder := CollectFrames(graphFrameMap, tableFrameMap, monitorTelemetryQuery.fromAlerting);
    frames := SetStatusMappings(frames);
    return DataResponse(frames, None), None, graphOrder, tableOrder;
  }

  /**
   * The shape of a handler's frames: one graph frame per distinct key of
   * the records whose time parses, all before the table frames, which are
   * there (one per key again) exactly when the query is not from alerting.
   * Each frame is the one built for its key's group of records.
   */
  lemma HandlerFrames(rs: seq<Record>, kind: Kind, parse: string -> Option<int>, fromAlerting: bool,
                      graphOrder: seq<string>, tableOrder: seq<string>)
    requires OrdersEnumerate(rs, kind, parse, fromAlerting, graphOrder, tableOrder)
    ensures var n := |ParsedKeys(rs, parse)|;
      |FramesInOrder(rs, kind, parse, fromAlerting, graphOrder, tableOrder)| == (if fromAlerting then n else 2 * n)
    ensures var frames := FramesInOrder(rs, kind, parse, fromAlerting, graphOrder, tableOrder);
      forall i | 0 <= i < |graphOrder| ::
        && Group(rs, parse, graphOrder[i]) != []
        && frames[i] == KeyFrame(GraphLayout, kind, rs, parse, graphOrder[i])
        && frames[i].meta == FrameMeta(TimeSeriesMulti, None)
    ensures var frames := FramesInOrder(rs, kind, parse, fromAlerting, graphOrder, tableOrder);
      forall i | 0 <= i < |tableOrder| ::
        && Group(rs, parse, tableOrder[i]) != []
        && frames[|graphOrder| + i] == KeyFrame(TableLayout, kind, rs, parse, tableOrder[i])
        && frames[|graphOrder| + i].meta == FrameMeta(TimeSeriesWide, Some(Table))
  {
    ListedFrames(GraphLayout, kind, rs, parse, graphOrder);
    if !fromAlerting {
      ListedFrames(TableLayout, kind, rs, parse, tableOrder);
    }
  }
}
