/**
 * The data source's entry points: QueryData runs every query of a request
 * through the time-range ceiling and the query dispatch, and classifies
 * the errors into response statuses; CheckHealth maps the answer of the
 * API's auth check to a health result.
 */
module Datasource {
  import opened Wrappers
  import opened GoRuntime
  import opened Grafana
  import opened PluginTypes
  import opened Queries

  /** The text of errTimerangeLimitExceeded. */
  const TimerangeLimitMessage: string := "time range cannot exceed 90 days"

  /**
   * ensureTimeRangeWithinLimits: the duration, truncated to whole hours,
   * may not exceed 90 days.
   */
  function EnsureTimeRangeWithinLimits(duration: Duration): (r: Option<Error>)
    ensures r.Some? <==> Truncate(duration, Hour) > DurationThreeMonths
    ensures r.Some? ==> r.value == Error(TimerangeLimitMessage, {TimerangeLimitExceeded})
  {
    if Truncate(duration, Hour) > DurationThreeMonths then Some(Error(TimerangeLimitMessage, {TimerangeLimitExceeded}))
    else None
  }

  /**
   * Because of the truncation the ceiling is 90 days and one hour,
   * exclusive: anything shorter passes, however many minutes past 90 days.
   */
  lemma {:induction false} TimeRangeCeiling(duration: Duration)
    ensures EnsureTimeRangeWithinLimits(duration).Some? <==> duration >= DurationThreeMonths + Hour
  {
    var t := Truncate(duration, Hour);
    if duration >= DurationThreeMonths + Hour {
      assert t > duration - Hour;
    } else if duration >= 0 {
      var q := Quo(duration, Hour);
      assert t == Hour * q;
      assert q <= 2160 by {
        if q > 2160 {
          assert false;
        }
      }
      assert t <= Hour * 2160;
    }
  }

  /** 90 days and 59 minutes pass; 90 days and one hour do not. */
  lemma TimeRangeCeilingExamples()
    ensures EnsureTimeRangeWithinLimits(DurationThreeMonths + 59 * Minute).None?
    ensures EnsureTimeRangeWithinLimits(DurationThreeMonths + Hour).Some?
    ensures EnsureTimeRangeWithinLimits(DurationThreeMonths).None?
  {
    TimeRangeCeiling(DurationThreeMonths + 59 * Minute);
    TimeRangeCeiling(DurationThreeMonths + Hour);
    TimeRangeCeiling(DurationThreeMonths);
  }

  /**
   * The error classification of QueryData: no error keeps the handler's
   * response; otherwise the first matching case replaces it.
   */
  function Classify(res: DataResponse, err: Option<Error>): (r: DataResponse)
    ensures err.None? ==> r == res
    ensures err.Some? ==> r.frames == [] && r.error.Some?
    ensures err.Some? && Is(err.value, DeadlineExceeded) ==> r.error.value.status == StatusTimeout
    ensures err.Some? && r.error.value.status == StatusInternal ==> r.error.value.message == err.value.message
  {
    if err.None? then res
    else if Is(err.value, DeadlineExceeded) then ErrDataResponse(StatusTimeout, "gateway timeout")
    else if Is(err.value, RemoteRequest) then ErrDataResponse(StatusBadGateway, "bad gateway request")
    else if Is(err.value, RemoteResponse) then ErrDataResponse(StatusValidationFailed, "bad gateway response")
    else ErrDataResponse(StatusInternal, err.value.message)
  }

  /**
   * The status an error is reported with: timeout, bad gateway or
   * validation failure for the three sentinels, in that order of
   * precedence, and internal for every other error.
   */
  lemma ClassifyStatus(res: DataResponse, e: Error)
    ensures var s := Classify(res, Some(e)).error.value.status;
      && (s == StatusTimeout <==> Is(e, DeadlineExceeded))
      && (s == StatusBadGateway <==> !Is(e, DeadlineExceeded) && Is(e, RemoteRequest))
      && (s == StatusValidationFailed <==> !Is(e, DeadlineExceeded) && !Is(e, RemoteRequest) && Is(e, RemoteResponse))
      && (s == StatusInternal <==> !Is(e, DeadlineExceeded) && !Is(e, RemoteRequest) && !Is(e, RemoteResponse))
      && s != StatusBadRequest
  {
  }

  /** An error overrides whatever response the handler built alongside it. */
  lemma ClassifyOverrides(res1: DataResponse, res2: DataResponse, e: Error)
    ensures Classify(res1, Some(e)) == Classify(res2, Some(e))
  {
  }

  /** Whether a query's request carries a body for every response the handler dereferences. */
  ghost predicate QueryBodiesPresent(q: DataQuery, api: Api, env: Env) {
    env.decodeModel(q.json).Success? ==>
      && (env.decodeModel(q.json).value.queryType == "GetMonitorTelemetry" ==> TelemetryBodyPresent(q, api, env))
      && (env.decodeModel(q.json).value.queryType == "GetMonitorStatusPageChanges" ==> StatusBodiesPresent(q, api, env))
  }

  /**
   * What `query` answers: an undecodable query model is a bad request, the
   * three known query types go to their handlers, and any other type gets
   * an empty response and no error.
   */
  ghost predicate QueryOutcome(q: DataQuery, api: Api, env: Env, res: DataResponse, err: Option<Error>,
                               graphOrder: seq<string>, tableOrder: seq<string>)
  {
    match env.decodeModel(q.json)
    case Failure(e) => res == DecodeError(e) && err == Some(e)
    case Success(qm) =>
      if qm.queryType == "GetMonitorErrors" then ErrorsOutcome(q, api, env, res, err, graphOrder, tableOrder)
      else if qm.queryType == "GetMonitorTelemetry" then TelemetryOutcome(q, api, env, res, err, graphOrder, tableOrder)
      else if qm.queryType == "GetMonitorStatusPageChanges" then
        StatusOutcome(q, api, env, res, err, graphOrder, tableOrder)
      else res == EmptyResponse && err == None
  }

  /** query: dispatch on the query type. */
  method Query(q: DataQuery, api: Api, env: Env)
    returns (res: DataResponse, err: Option<Error>, ghost graphOrder: seq<string>, ghost tableOrder: seq<string>)
    requires TypedApi(api)
    requires QueryBodiesPresent(q, api, env)
    ensures QueryOutcome(q, api, env, res, err, graphOrder, tableOrder)
  {
    var qm := env.decodeModel(q.json);
    if qm.Failure? {
      return DecodeError(qm.error), Some(qm.error), [], [];
    }
    match qm.value.queryType
    case "GetMonitorErrors" =>
      res, err, graphOrder, tableOrder := QueryMonitorErrors(q, api, env);
    case "GetMonitorTelemetry" =>
      res, err, graphOrder, tableOrder := QueryMonitorTelemetry(q, api, env);
    case "GetMonitorStatusPageChanges" =>
      res, err, graphOrder, tableOrder := QueryMonitorStatusPageChanges(q, api, env);
    case _ =>
      res, err, graphOrder, tableOrder := EmptyResponse, None, [], [];
  }

  /** What the handler of one query returned, with the key orders of its frames. */
  datatype Outcome = Outcome(res: DataResponse, err: Option<Error>, graphOrder: seq<string>, tableOrder: seq<string>)

  /** A query whose time range is over the ceiling; its handler is not run. */
  predicate TimeRangeRefused(q: DataQuery) {
    EnsureTimeRangeWithinLimits(RangeDuration(q.timeRange)).Some?
  }

  /** A query that passed the ceiling was answered as `query` answers it. */
  ghost predicate Handled(q: DataQuery, api: Api, env: Env, o: Outcome) {
    !TimeRangeRefused(q) ==> QueryOutcome(q, api, env, o.res, o.err, o.graphOrder, o.tableOrder)
  }

  /** The response QueryData files for a query, given what its handler returned. */
  function Answer(q: DataQuery, o: Outcome): DataResponse {
    if TimeRangeRefused(q) then ErrDataResponse(StatusBadRequest, TimerangeLimitMessage)
    else Classify(o.res, o.err)
  }

  /** No later query among the first n has the same RefID as query i. */
  predicate LastWithRefID(queries: seq<DataQuery>, n: int, i: int)
    requires 0 <= i < n <= |queries|
  {
    forall j | i < j < n :: queries[j].refID != queries[i].refID
  }

  /** The RefIDs of the first n queries. */
  function RefIDs(queries: seq<DataQuery>, n: int): set<string>
    requires 0 <= n <= |queries|
  {
    set i | 0 <= i < n :: queries[i].refID
  }

  /**
   * One query of QueryData: the time-range ceiling first, then the
   * dispatch and the classification of its error.
   */
  method Respond(q: DataQuery, api: Api, env: Env) returns (res: DataResponse, ghost outcome: Outcome)
    requires TypedApi(api)
    requires QueryBodiesPresent(q, api, env)
    ensures res == Answer(q, outcome)
    ensures Handled(q, api, env, outcome)
  {
    var limit := EnsureTimeRangeWithinLimits(RangeDuration(q.timeRange));
    if limit.Some? {
      return ErrDataResponse(StatusBadRequest, limit.value.message), Outcome(EmptyResponse, None, [], []);
    }
    var e;
    ghost var graphOrder, tableOrder;
    res, e, graphOrder, tableOrder := Query(q, api, env);
    outcome := Outcome(res, e, graphOrder, tableOrder);
    if e.None? {
    } else if Is(e.value, DeadlineExceeded) {
      res := ErrDataResponse(StatusTimeout, "gateway timeout");
    } else if Is(e.value, RemoteRequest) {
      res := ErrDataResponse(StatusBadGateway, "bad gateway request");
    } else if Is(e.value, RemoteResponse) {
      res := ErrDataResponse(StatusValidationFailed, "bad gateway response");
    } else {
      res := ErrDataResponse(StatusInternal, e.value.message);
    }
  }

  /**
   * A telemetry query inside the ceiling but starting before the 90-day
   * window: the handler's bad request is replaced, and the client sees an
   * internal error carrying the window error's text.
   */
  lemma TelemetryOutsideWindowIsInternal(q: DataQuery, api: Api, env: Env, o: Outcome)
    requires !TimeRangeRefused(q) && Handled(q, api, env, o)
    requires env.decodeModel(q.json).Success? && env.decodeModel(q.json).value.queryType == "GetMonitorTelemetry"
    requires q.timeRange.from < env.now - DurationThreeMonths
    ensures Answer(q, o) == ErrDataResponse(StatusInternal, env.outsideBoundsMessage)
  {
    var e := Error(env.outsideBoundsMessage, {TelemetryRequestedOutsideBounds});
    assert o.err == Some(e);
    assert !Is(e, DeadlineExceeded) && !Is(e, RemoteRequest) && !Is(e, RemoteResponse);
  }

  /**
   * A query model that does not decode, with an error that carries no
   * sentinel: the handler's "json unmarshal" bad request is replaced by an
   * internal error with the decoder's own text.
   */
  lemma UndecodableQueryIsInternal(q: DataQuery, api: Api, env: Env, o: Outcome)
    requires !TimeRangeRefused(q) && Handled(q, api, env, o)
    requires env.decodeModel(q.json).Failure? && env.decodeModel(q.json).error.chain == {}
    ensures Answer(q, o) == ErrDataResponse(StatusInternal, env.decodeModel(q.json).error.message)
  {
  }

  lemma {:induction false} HandledExtend(queries: seq<DataQuery>, n: int, api: Api, env: Env,
                                         outcomes: seq<Outcome>, outcome: Outcome)
    requires 0 <= n < |queries| && |outcomes| == n
    requires forall i | 0 <= i < n :: Handled(queries[i], api, env, outcomes[i])
    requires Handled(queries[n], api, env, outcome)
    ensures forall i | 0 <= i < n + 1 :: Handled(queries[i], api, env, (outcomes + [outcome])[i])
  {
    forall i | 0 <= i < n + 1
      ensures Handled(queries[i], api, env, (outcomes + [outcome])[i])
    {
      if i < n {
        assert (outcomes + [outcome])[i] == outcomes[i];
      }
    }
  }

  /** Filing query n's answer keeps the answers of the earlier queries it does not shadow. */
  lemma {:induction false} FileAnswer(queries: seq<DataQuery>, n: int, responses: map<string, DataResponse>,
                                      outcomes: seq<Outcome>, res: DataResponse, outcome: Outcome)
    requires 0 <= n < |queries| && |outcomes| == n
    requires responses.Keys == RefIDs(queries, n)
    requires forall i | 0 <= i < n && LastWithRefID(queries, n, i) ::
      responses[queries[i].refID] == Answer(queries[i], outcomes[i])
    requires res == Answer(queries[n], outcome)
    ensures responses[queries[n].refID := res].Keys == RefIDs(queries, n + 1)
    ensures forall i | 0 <= i < n + 1 && LastWithRefID(queries, n + 1, i) ::
      responses[queries[n].refID := res][queries[i].refID] == Answer(queries[i], (outcomes + [outcome])[i])
  {
    assert RefIDs(queries, n + 1) == RefIDs(queries, n) + {queries[n].refID};
    forall i | 0 <= i < n + 1 && LastWithRefID(queries, n + 1, i)
      ensures responses[queries[n].refID := res][queries[i].refID] == Answer(queries[i], (outcomes + [outcome])[i])
    {
      if i < n {
        assert queries[n].refID != queries[i].refID;
        assert LastWithRefID(queries, n, i);
      }
    }
  }

  /**
   * QueryData: every query's RefID gets a response, the last query with a
   * RefID decides it, a range over the ceiling is a bad request without
   * running the handler, the handler's errors are classified, and the call
   * itself never fails.
   */
  method QueryData(queries: seq<DataQuery>, api: Api, env: Env)
    returns (responses: map<string, DataResponse>, err: Option<Error>, ghost outcomes: seq<Outcome>)
    requires TypedApi(api)
    requires forall i | 0 <= i < |queries| :: QueryBodiesPresent(queries[i], api, env)
    ensures err == None
    ensures responses.Keys == RefIDs(queries, |queries|)
    ensures |outcomes| == |queries|
    ensures forall i | 0 <= i < |queries| :: Handled(queries[i], api, env, outcomes[i])
    ensures forall i | 0 <= i < |queries| && LastWithRefID(queries, |queries|, i) ::
      responses[queries[i].refID] == Answer(queries[i], outcomes[i])
  {
    responses := map[];
    outcomes := [];
    for n := 0 to |queries|
      invariant |outcomes| == n
      invariant responses.Keys == RefIDs(queries, n)
      invariant forall i | 0 <= i < n :: Handled(queries[i], api, env, outcomes[i])
      invariant forall i | 0 <= i < n && LastWithRefID(queries, n, i) ::
        responses[queries[i].refID] == Answer(queries[i], outcomes[i])
    {
      var res, outcome := Respond(queries[n], api, env);
      HandledExtend(queries, n, api, env, outcomes, outcome);
      FileAnswer(queries, n, responses, outcomes, res, outcome);
      responses := responses[queries[n].refID := res];
      outcomes := outcomes + [outcome];
    }
    return responses, None, outcomes;
  }

  /** The health states reported to Grafana. */
  datatype HealthStatus = HealthOk | HealthError

  datatype CheckHealthResult = CheckHealthResult(status: HealthStatus, message: string)

  /** The auth check's answer: its status code and status line. */
  datatype AuthResponse = AuthResponse(statusCode: int, status: string)

  /**
   * CheckHealth: a client error is returned as is; 200 is healthy, 401 is
   * an invalid API key, and any other code reports its status line.
   */
  function CheckHealth(verify: Result<AuthResponse, Error>): (r: Result<CheckHealthResult, Error>)
    ensures verify.Failure? ==> r == Failure(verify.error)
    ensures verify.Success? ==> r.Success? && (r.value.status == HealthOk <==> verify.value.statusCode == 200)
    ensures verify.Success? && verify.value.statusCode == 200 ==> r.value.message == "Data source is working!"
    ensures verify.Success? && verify.value.statusCode == 401 ==> r.value.message == "Unauthorized: Invalid API Key"
    ensures verify.Success? && verify.value.statusCode !in {200, 401} ==> r.value.message == verify.value.status
  {
    if verify.Failure? then Failure(verify.error)
    else
      match verify.value.statusCode
      case 200 => Success(CheckHealthResult(HealthOk, "Data source is working!"))
      case 401 => Success(CheckHealthResult(HealthError, "Unauthorized: Invalid API Key"))
      case _ => Success(CheckHealthResult(HealthError, verify.value.status))
  }
}
