/**
 * Paginated fetching from the monitoring API: the cursor loop of each
 * stream, the one or two parameter variants of the errors query, the
 * per-stream result slots, and the merge by timestamp.
 *
 * The remote API is a total function from request parameters to a page
 * result; the concurrent streams of the errors query run one after the
 * other, each writing only its own slot.
 */
module Pagination {
  import opened Wrappers
  import opened GoRuntime
  import opened Grafana
  import opened Records
  import opened Sorting
  import opened PluginTypes

  /** maxPageCount: the most client calls one stream makes. */
  const MaxPageCount: nat := 20

  /** The request parameters of the two paginated endpoints. */
  datatype Params =
    | ErrorParams(from: int, to: int, monitors: seq<string>, onlyShared: Option<bool>,
                  checks: Option<seq<string>>, instances: Option<seq<string>>,
                  cursorAfter: Option<string>)
    | StatusPageParams(from: int, to: int, monitors: seq<string>, cursorAfter: Option<string>)

  /**
   * What one client call yields: a transport error, a response without a
   * 200 body, or a page of entries with the cursor for the next page.
   */
  datatype PageResult =
    | ClientError(err: Error)
    | NoBody(status: string)
    | Page(entries: seq<Record>, cursorAfter: Option<string>)

  /** The remote API, one call per request. */
  type Client = Params -> PageResult

  /** The record kind each endpoint returns, as its generated response type fixes it. */
  function EndpointKind(p: Params): Kind {
    if p.ErrorParams? then ErrorKind else StatusKind
  }

  /** Every page the client returns holds records of its endpoint's kind. */
  ghost predicate TypedPages(client: Client) {
    forall p: Params :: client(p).Page? ==> AllOfKind(client(p).entries, EndpointKind(p))
  }

  /** The entries a stream collected and the error that ended it, if any. */
  datatype StreamOutcome = StreamOutcome(entries: seq<Record>, err: Option<Error>)

  /** nilIfEmpty: a missing or empty filter is sent as no filter at all. */
  function NilIfEmpty(filter: Option<seq<string>>): (r: Option<seq<string>>)
    ensures r.None? <==> (filter.None? || |filter.value| == 0)
    ensures r.Some? ==> r == filter
  {
    if filter.None? || |filter.value| == 0 then None else filter
  }

  /** A response that asks for another page. */
  predicate Continues(r: PageResult) {
    r.Page? && r.cursorAfter.Some?
  }

  /** The parameters with the cursor replaced, as `CursorAfter = response.Metadata.CursorAfter`. */
  function WithCursor(p: Params, cursor: Option<string>): Params {
    p.(cursorAfter := cursor)
  }

  /**
   * The result of paging from p with at most `budget` calls left: stop on
   * a client error, on a missing body, on a nil cursor or when the budget
   * is spent; otherwise go on with the returned cursor.
   */
  function Stream(client: Client, p: Params, budget: nat): StreamOutcome
    decreases budget
  {
    if budget == 0 then StreamOutcome([], None)
    else
      var r := client(p);
      if r.ClientError? then StreamOutcome([], Some(r.err))
      else if r.NoBody? then StreamOutcome([], None)
      else if r.cursorAfter.None? then StreamOutcome(r.entries, None)
      else
        var rest := Stream(client, WithCursor(p, r.cursorAfter), budget - 1);
        StreamOutcome(r.entries + rest.entries, rest.err)
  }

  /** The requests a stream sends, in order. */
  function Requests(client: Client, p: Params, budget: nat): seq<Params>
    decreases budget
  {
    if budget == 0 then []
    else if Continues(client(p)) then [p] + Requests(client, WithCursor(p, client(p).cursorAfter), budget - 1)
    else [p]
  }

  /** A page's entries; nothing for a response that is not a page. */
  function EntriesOf(r: PageResult): seq<Record> {
    if r.Page? then r.entries else []
  }

  /** The entries of the responses to the given requests, concatenated in request order. */
  function Collected(client: Client, reqs: seq<Params>): seq<Record>
    decreases |reqs|
  {
    if reqs == [] then [] else EntriesOf(client(reqs[0])) + Collected(client, reqs[1..])
  }

  /**
   * A stream makes at most `budget` calls, and at least one when it may;
   * its first call carries the starting parameters; every later call
   * carries exactly the cursor of the response before it, which asked for
   * more; and only the last response may stop the stream.
   */
  lemma {:induction false} RequestsFollowCursors(client: Client, p: Params, budget: nat)
    ensures var reqs := Requests(client, p, budget);
      && |reqs| <= budget
      && (budget > 0 ==> |reqs| > 0 && reqs[0] == p)
      && (forall k | 0 <= k < |reqs| - 1 ::
            Continues(client(reqs[k])) && reqs[k + 1] == WithCursor(reqs[k], client(reqs[k]).cursorAfter))
      && (0 < |reqs| < budget ==> !Continues(client(reqs[|reqs| - 1])))
    decreases budget
  {
    if budget > 0 && Continues(client(p)) {
      var next := WithCursor(p, client(p).cursorAfter);
      RequestsFollowCursors(client, next, budget - 1);
      var reqs := Requests(client, p, budget);
      var tail := Requests(client, next, budget - 1);
      assert reqs == [p] + tail;
      forall k | 0 <= k < |reqs| - 1
        ensures Continues(client(reqs[k])) && reqs[k + 1] == WithCursor(reqs[k], client(reqs[k]).cursorAfter)
      {
        if k > 0 {
          assert reqs[k] == tail[k - 1] && reqs[k + 1] == tail[k];
        }
      }
    }
  }

  /** Every stream of the plugin makes at most maxPageCount calls. */
  lemma AtMostMaxPageCountCalls(client: Client, p: Params)
    ensures 1 <= |Requests(client, p, MaxPageCount)| <= 20
  {
    RequestsFollowCursors(client, p, MaxPageCount);
  }

  /**
   * A stream's entries are the entries of its responses concatenated in
   * page order (pages fetched before a client error are kept), and it ends
   * in error exactly when its last response is a client error.
   */
  lemma {:induction false} StreamCollectsPages(client: Client, p: Params, budget: nat)
    ensures var reqs := Requests(client, p, budget);
      && Stream(client, p, budget).entries == Collected(client, reqs)
      && (Stream(client, p, budget).err.Some? <==>
            (|reqs| > 0 && client(reqs[|reqs| - 1]).ClientError?))
      && (Stream(client, p, budget).err.Some? ==>
            Stream(client, p, budget).err.value == client(reqs[|reqs| - 1]).err)
    decreases budget
  {
    if budget > 0 {
      var reqs := Requests(client, p, budget);
      if Continues(client(p)) {
        var next := WithCursor(p, client(p).cursorAfter);
        StreamCollectsPages(client, next, budget - 1);
        var tail := Requests(client, next, budget - 1);
        assert reqs == [p] + tail;
        assert reqs[1..] == tail;
        RequestsFollowCursors(client, next, budget - 1);
        if |tail| > 0 {
          assert reqs[|reqs| - 1] == tail[|tail| - 1];
        } else {
          assert budget - 1 == 0;
        }
      } else {
        assert reqs == [p];
        assert reqs[1..] == [];
      }
    }
  }

  /** A stream of a typed client collects records of its endpoint's kind only. */
  lemma {:induction false} StreamOfKind(client: Client, p: Params, budget: nat)
    requires TypedPages(client)
    ensures AllOfKind(Stream(client, p, budget).entries, EndpointKind(p))
    decreases budget
  {
    if budget > 0 && Continues(client(p)) {
      var next := WithCursor(p, client(p).cursorAfter);
      StreamOfKind(client, next, budget - 1);
      assert EndpointKind(next) == EndpointKind(p);
    }
  }

  /** The two requests the errors query may send: own data, then shared data when asked for. */
  function ErrorParamVariants(q: TelemetryQuery, tr: TimeRange): (ps: seq<Params>)
    ensures |ps| == (if q.includeShared then 2 else 1)
    ensures ps[0] == ErrorParams(tr.from, tr.to, q.monitors, None, q.checks, q.instances, None)
    ensures q.includeShared ==>
      ps[1] == ErrorParams(tr.from, tr.to, q.monitors, Some(true), q.checks, q.instances, None)
  {
    var own := ErrorParams(tr.from, tr.to, q.monitors, None, q.checks, q.instances, None);
    if q.includeShared then [own, own.(onlyShared := Some(true))] else [own]
  }

  /** The parameters a stream starts from: the variant with empty filters dropped. */
  function StreamStart(param: Params): (p: Params)
    requires param.ErrorParams?
    ensures p.ErrorParams? && p.cursorAfter.None?
    ensures p.checks == NilIfEmpty(param.checks) && p.instances == NilIfEmpty(param.instances)
    ensures p.from == param.from && p.to == param.to && p.monitors == param.monitors
    ensures p.onlyShared == param.onlyShared
  {
    ErrorParams(param.from, param.to, param.monitors, param.onlyShared,
                NilIfEmpty(param.checks), NilIfEmpty(param.instances), None)
  }

  /**
   * One stream of the errors fetch: pages through the results for param,
   * appending every page to slot i, and touches no other slot.
   */
  method PageThrough(client: Client, param: Params, slots: array<seq<Record>>, i: nat)
    returns (err: Option<Error>)
    requires param.ErrorParams?
    requires i < slots.Length
    modifies slots
    ensures slots[i] == old(slots[i]) + Stream(client, StreamStart(param), MaxPageCount).entries
    ensures err == Stream(client, StreamStart(param), MaxPageCount).err
    ensures forall k | 0 <= k < slots.Length && k != i :: slots[k] == old(slots[k])
  {
    ghost var start := StreamStart(param);
    ghost var collected: seq<Record> := [];
    var current := StreamStart(param);
    var pageCount := 0;
    while pageCount < MaxPageCount
      invariant 0 <= pageCount <= MaxPageCount
      invariant slots[i] == old(slots[i]) + collected
      invariant Stream(client, start, MaxPageCount) == Prepend(collected, Stream(client, current, MaxPageCount - pageCount))
      invariant forall k | 0 <= k < slots.Length && k != i :: slots[k] == old(slots[k])
    {
      var resp := client(current);
      if resp.ClientError? {
        return Some(resp.err);
      }
      if resp.NoBody? {
        return None;
      }
      StreamStep(client, current, MaxPageCount - pageCount);
      slots[i] := slots[i] + resp.entries;
      collected := collected + resp.entries;
      current := WithCursor(current, resp.cursorAfter);
      if current.cursorAfter.None? {
        assert Stream(client, start, MaxPageCount) == StreamOutcome(collected, None);
        return None;
      }
      pageCount := pageCount + 1;
    }
    assert Stream(client, start, MaxPageCount) == StreamOutcome(collected, None);
    return None;
  }

  /** `a` before `b` in time, as strToTime(a).Before(strToTime(b)). */
  function ByTime(timeOf: string -> int): (Record, Record) -> bool {
    (a: Record, b: Record) => timeOf(a.timestamp) < timeOf(b.timestamp)
  }

  lemma ByTimeIsStrictWeakOrder(timeOf: string -> int)
    ensures StrictWeakOrder(ByTime(timeOf))
  {
  }

  /** The entries of the streams, in slot order. */
  function Concat(slots: seq<seq<Record>>): seq<Record>
    decreases |slots|
  {
    if slots == [] then [] else Concat(slots[..|slots| - 1]) + slots[|slots| - 1]
  }

  /** The streams of the errors fetch, in slot order. */
  function ErrorStreams(client: Client, q: TelemetryQuery, tr: TimeRange): (ss: seq<StreamOutcome>)
    ensures |ss| == |ErrorParamVariants(q, tr)|
  {
    var ps := ErrorParamVariants(q, tr);
    seq(|ps|, k requires 0 <= k < |ps| => Stream(client, StreamStart(ps[k]), MaxPageCount))
  }

  /** The first stream error in slot order, if any. */
  function FirstError(ss: seq<StreamOutcome>): (e: Option<Error>)
    ensures e.None? <==> forall k | 0 <= k < |ss| :: ss[k].err.None?
    ensures e.Some? ==> exists k | 0 <= k < |ss| :: ss[k].err == e
    decreases |ss|
  {
    if ss == [] then None
    else if ss[0].err.Some? then ss[0].err
    else
      var e := FirstError(ss[1..]);
      assert forall k | 1 <= k < |ss| :: ss[k] == ss[1..][k - 1];
      e
  }

  function EntriesOfStreams(ss: seq<StreamOutcome>): (es: seq<seq<Record>>)
    ensures |es| == |ss|
    ensures forall k | 0 <= k < |ss| :: es[k] == ss[k].entries
  {
    seq(|ss|, k requires 0 <= k < |ss| => ss[k].entries)
  }

  /**
   * fetchAllMonitorErrors as a function: a stream error fails the whole
   * fetch; otherwise the streams' entries, own data first, are stably
   * sorted by time.
   */
  function MonitorErrorsFetch(client: Client, q: TelemetryQuery, tr: TimeRange, timeOf: string -> int)
    : Result<seq<Record>, Error>
  {
    var ss := ErrorStreams(client, q, tr);
    var e := FirstError(ss);
    if e.Some? then Failure(e.value)
    else Success(SortSeq(Concat(EntriesOfStreams(ss)), ByTime(timeOf)))
  }

  /**
   * fetchAllMonitorErrors: one stream per parameter variant, each into its
   * own slot, then the slots concatenated in order and sorted stably by
   * timestamp. The streams run in slot order; the first one to fail ends
   * the fetch.
   */
  method FetchAllMonitorErrors(client: Client, q: TelemetryQuery, tr: TimeRange, timeOf: string -> int)
    returns (res: Result<seq<Record>, Error>)
    ensures res == MonitorErrorsFetch(client, q, tr, timeOf)
  {
    var params := ErrorParamVariants(q, tr);
    ghost var ss := ErrorStreams(client, q, tr);
    var result := new seq<Record>[|params|](_ => []);
    var i := 0;
    while i < |params|
      invariant 0 <= i <= |params|
      invariant forall k | 0 <= k < i :: result[k] == ss[k].entries && ss[k].err.None?
      invariant forall k | i <= k < |params| :: result[k] == []
    {
      var err := PageThrough(client, params[i], result, i);
      if err.Some? {
        assert ss[i].err == err;
        assert FirstError(ss) == err by { FirstErrorAt(ss, i); }
        return Failure(err.value);
      }
      i := i + 1;
    }
    assert FirstError(ss).None?;

    var monitorErrors: seq<Record> := [];
    for k := 0 to result.Length
      invariant monitorErrors == Concat(result[..k])
    {
      assert result[..k + 1][..k] == result[..k];
      if |result[k]| == 0 {
        continue;
      }
      monitorErrors := monitorErrors + result[k];
    }
    assert result[..result.Length] == EntriesOfStreams(ss);

    var a := new Record[|monitorErrors|](k requires 0 <= k < |monitorErrors| => monitorErrors[k]);
    assert a[..] == monitorErrors;
    InsertionSort(a, ByTime(timeOf));
    return Success(a[..]);
  }

  /** The first error is the one of the first failing slot. */
  lemma {:induction false} FirstErrorAt(ss: seq<StreamOutcome>, i: nat)
    requires i < |ss| && ss[i].err.Some?
    requires forall k | 0 <= k < i :: ss[k].err.None?
    ensures FirstError(ss) == ss[i].err
    decreases i
  {
    if i > 0 {
      FirstErrorAt(ss[1..], i - 1);
    }
  }

  /** The concatenation of two slots is the first followed by the second. */
  lemma ConcatTwo(a: seq<Record>, b: seq<Record>)
    ensures Concat([a, b]) == a + b
  {
    assert [a, b][..1] == [a];
    assert [a][..0] == [];
    assert Concat([a]) == Concat([]) + a == a;
  }

  /** The entries the merge sorts: own data, then shared data when asked for. */
  function MergeInput(client: Client, q: TelemetryQuery, tr: TimeRange): seq<Record> {
    var ss := ErrorStreams(client, q, tr);
    if q.includeShared then ss[0].entries + ss[1].entries else ss[0].entries
  }

  /** The slots concatenated in order are the own entries followed by the shared ones. */
  lemma ConcatIsMergeInput(client: Client, q: TelemetryQuery, tr: TimeRange)
    ensures Concat(EntriesOfStreams(ErrorStreams(client, q, tr))) == MergeInput(client, q, tr)
  {
    var ss := ErrorStreams(client, q, tr);
    if q.includeShared {
      ConcatTwo(ss[0].entries, ss[1].entries);
      assert EntriesOfStreams(ss) == [ss[0].entries, ss[1].entries];
    } else {
      assert EntriesOfStreams(ss) == [ss[0].entries];
      assert [ss[0].entries][..0] == [];
    }
  }

  /** The merged errors are sorted by time. */
  lemma MergedErrorsSorted(client: Client, q: TelemetryQuery, tr: TimeRange, timeOf: string -> int)
    requires MonitorErrorsFetch(client, q, tr, timeOf).Success?
    ensures SortedBy(MonitorErrorsFetch(client, q, tr, timeOf).value, ByTime(timeOf))
  {
    ByTimeIsStrictWeakOrder(timeOf);
    SortSeqSorted(Concat(EntriesOfStreams(ErrorStreams(client, q, tr))), ByTime(timeOf));
  }

  /** The merged errors are a permutation of the own entries followed by the shared ones. */
  lemma MergedErrorsPermute(client: Client, q: TelemetryQuery, tr: TimeRange, timeOf: string -> int)
    requires MonitorErrorsFetch(client, q, tr, timeOf).Success?
    ensures multiset(MonitorErrorsFetch(client, q, tr, timeOf).value) == multiset(MergeInput(client, q, tr))
  {
    ConcatIsMergeInput(client, q, tr);
    SortSeqPermutes(MergeInput(client, q, tr), ByTime(timeOf));
  }

  /**
   * Records with equal timestamps keep their concatenation order, so own
   * data comes before shared data.
   */
  lemma MergedErrorsStable(client: Client, q: TelemetryQuery, tr: TimeRange, timeOf: string -> int, e: Record)
    requires MonitorErrorsFetch(client, q, tr, timeOf).Success?
    ensures var ss := ErrorStreams(client, q, tr);
      Ties(MonitorErrorsFetch(client, q, tr, timeOf).value, e, ByTime(timeOf))
      == Ties(ss[0].entries, e, ByTime(timeOf))
         + (if q.includeShared then Ties(ss[1].entries, e, ByTime(timeOf)) else [])
  {
    var ss := ErrorStreams(client, q, tr);
    ConcatIsMergeInput(client, q, tr);
    ByTimeIsStrictWeakOrder(timeOf);
    SortSeqStable(MergeInput(client, q, tr), e, ByTime(timeOf));
    if q.includeShared {
      TiesAppend(ss[0].entries, ss[1].entries, e, ByTime(timeOf));
    }
  }

  /** The merged errors of a typed client are all error counts. */
  lemma MergedErrorsOfKind(client: Client, q: TelemetryQuery, tr: TimeRange, timeOf: string -> int)
    requires TypedPages(client)
    requires MonitorErrorsFetch(client, q, tr, timeOf).Success?
    ensures AllOfKind(MonitorErrorsFetch(client, q, tr, timeOf).value, ErrorKind)
  {
    var merged := MonitorErrorsFetch(client, q, tr, timeOf).value;
    var ss := ErrorStreams(client, q, tr);
    var ps := ErrorParamVariants(q, tr);
    StreamOfKind(client, StreamStart(ps[0]), MaxPageCount);
    if q.includeShared {
      StreamOfKind(client, StreamStart(ps[1]), MaxPageCount);
    }
    var input := MergeInput(client, q, tr);
    assert AllOfKind(input, ErrorKind);
    MergedErrorsPermute(client, q, tr, timeOf);
    forall i | 0 <= i < |merged| ensures KindOf(merged[i]) == ErrorKind {
      assert merged[i] in multiset(input);
      var j :| 0 <= j < |input| && input[j] == merged[i];
    }
  }

  /** fetchAllStatusPageMonitor's request: the range and monitors, no cursor. */
  function StatusPageStart(q: TelemetryQuery, tr: TimeRange): Params {
    StatusPageParams(tr.from, tr.to, q.monitors, None)
  }

  /**
   * The status-page stream never receives a response without a body; the
   * code dereferences every body without a check.
   */
  predicate BodiesPresent(client: Client, p: Params, budget: nat) {
    forall k | 0 <= k < |Requests(client, p, budget)| ::
      !client(Requests(client, p, budget)[k]).NoBody?
  }

  /** A stream outcome with entries collected earlier put in front. */
  function Prepend(es: seq<Record>, o: StreamOutcome): StreamOutcome {
    StreamOutcome(es + o.entries, o.err)
  }

  /** One page of a stream: its entries, followed by the rest of the stream when it continues. */
  lemma StreamStep(client: Client, p: Params, budget: nat)
    requires budget > 0 && client(p).Page?
    ensures client(p).cursorAfter.None? ==> Stream(client, p, budget) == StreamOutcome(client(p).entries, None)
    ensures client(p).cursorAfter.Some? ==>
      var rest := Stream(client, WithCursor(p, client(p).cursorAfter), budget - 1);
      Stream(client, p, budget) == StreamOutcome(client(p).entries + rest.entries, rest.err)
  {
  }

  /** One step of a stream whose bodies are all present. */
  lemma BodiesPresentStep(client: Client, p: Params, budget: nat)
    requires budget > 0 && BodiesPresent(client, p, budget)
    ensures !client(p).NoBody?
    ensures Continues(client(p)) ==> BodiesPresent(client, WithCursor(p, client(p).cursorAfter), budget - 1)
  {
    var reqs := Requests(client, p, budget);
    assert reqs[0] == p;
    if Continues(client(p)) {
      var tail := Requests(client, WithCursor(p, client(p).cursorAfter), budget - 1);
      assert reqs == [p] + tail;
      forall k | 0 <= k < |tail| ensures !client(tail[k]).NoBody? {
        assert tail[k] == reqs[k + 1];
      }
    }
  }

  /**
   * fetchAllStatusPageMonitor: a single stream, in page order and unsorted;
   * a client error discards the pages fetched so far.
   */
  method FetchAllStatusPageMonitor(client: Client, q: TelemetryQuery, tr: TimeRange)
    returns (res: Result<seq<Record>, Error>)
    requires BodiesPresent(client, StatusPageStart(q, tr), MaxPageCount)
    ensures var s := Stream(client, StatusPageStart(q, tr), MaxPageCount);
      res == if s.err.Some? then Failure(s.err.value) else Success(s.entries)
  {
    ghost var start := StatusPageStart(q, tr);
    var monitorStatuses: seq<Record> := [];
    var params := StatusPageStart(q, tr);
    var pageCount := 0;
    while pageCount < MaxPageCount
      invariant 0 <= pageCount <= MaxPageCount
      invariant Stream(client, start, MaxPageCount) == Prepend(monitorStatuses, Stream(client, params, MaxPageCount - pageCount))
      invariant BodiesPresent(client, params, MaxPageCount - pageCount)
    {
      var resp := client(params);
      BodiesPresentStep(client, params, MaxPageCount - pageCount);
      if resp.ClientError? {
        return Failure(resp.err);
      }
      if resp.NoBody? {
        assert false;
      }
      StreamStep(client, params, MaxPageCount - pageCount);
      ghost var before := monitorStatuses;
      monitorStatuses := monitorStatuses + resp.entries;
      params := WithCursor(params, resp.cursorAfter);
      assert monitorStatuses == before + resp.entries;
      if params.cursorAfter.None? {
        assert Stream(client, start, MaxPageCount) == StreamOutcome(monitorStatuses, None);
        break;
      }
      pageCount := pageCount + 1;
    }
    assert Stream(client, start, MaxPageCount) == StreamOutcome(monitorStatuses, None);
    return Success(monitorStatuses);
  }
}
