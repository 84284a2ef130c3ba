# Metrist Grafana data source: a Dafny model of its query core

This project models the query core of the Metrist data-source plugin for
Grafana. That core is written in Go. The model covers four parts:

- **Record helpers** (`pkg/internal/api_helpers.go`). There are three record
  kinds: monitor error counts, monitor telemetry and status-page component
  changes. For each kind the model gives its timestamp, graph and table row
  values, grouping key, frame definitions and labels, plus the 0..4 status
  severity table.
- **Query handlers** (`pkg/plugin/queries.go`):
  - the cursor pagination, capped at 20 pages;
  - the errors fetch, with one stream for own data and one for shared data,
    merged and sorted by time with a stable sort;
  - the status-page fetch;
  - grouping records by key into graph frames and table frames;
  - the 90-day telemetry window;
  - the 0/1/2 status table and the status value mappings.
- **Entry points** (`pkg/plugin/datasource.go`):
  - the 90-day time-range ceiling, applied after truncation to whole hours;
  - dispatch on the query type;
  - the QueryData loop, including how errors are classified into response
    statuses;
  - the CheckHealth mapping.
- **Select-box resources** (`pkg/plugin/resources.go`, `pkg/plugin/utils.go`):
  the monitor, check and instance option lists, and `uniqStrings`.

The model follows the shape of the Go code:

- Pure Go helpers are Dafny functions with lemmas.
- Go loops are Dafny methods with loop invariants. Each method is proved
  against a specification function.
- The in-place sorts run an insertion sort on an `array`. Its result is the
  functional `SortSeq`, which is proved sorted, a permutation and stable.
- Go map iteration has no defined order, so the model picks each next key
  with a nondeterministic choice. Ghost outputs record the order it took.
  Every property is proved for every such order.

Everything the code gets from libraries or the environment is a parameter:

- the remote API (`Api`, `Client`);
- JSON decoding, the RFC 3339 parser, `strToTime` and the clock (`Env`).

Go errors carry a set of sentinels, and `errors.Is` checks membership in
that set.

## Where the code and its tests disagree (the model follows the code)

- **Graph frame metadata.** The handlers build their graph frames inline
  (`queries.go:63-71`) with no preferred visualisation.
  `GetGraphFrameDefinition` in `api_helpers.go:39-50` sets `Graph`, and the
  expected frames in `datasource_test.go` carry `Graph` too. The handlers'
  frames are modelled as the code builds them: `FrameMeta(TimeSeriesMulti,
  None)`.

## Notes on the code's behaviour

- **Table frames.** The code builds one table frame per grouping key
  (`queries.go:78-96`), not a single wide table; `HandlerFrames` states that
  shape.
- **Grouping key.** The key joins the dimensions with `-`, so it is not
  injective: `Records.KeyCollision` exhibits two different tuples with one
  key, and records whose keys collide share a frame.
  `Records.KeyInjectiveWithoutDashes` gives the condition under which it is
  injective: no dimension but the last contains a dash.
- **Two status tables.** The status handler uses `spcStatusToInt` in
  `queries.go:423-432`, where up and operational are 0, degraded is 1, down
  is 2 and anything else is 0. The 0..4 table in `api_helpers.go:172-198`
  is modelled separately, as `Records.SeverityOf`.
- **Missing bodies.** A missing 200 body in the status-page fetch and in the
  telemetry call is dereferenced without a check; it is not a soft stop.
  The model makes the body's presence a precondition. In the errors fetch, a
  missing body ends that stream quietly, and the model does the same.
- **Error classification.** Nothing in this code wraps an error in
  `errRemoteRequest` or `errRemoteResponse`, so the bad-gateway and
  validation-failed branches (`datasource.go:112-115`) are never taken for
  the errors the handlers pass on (`queries.go:37-38`, `175-176`,
  `215-216`, `304-305`, `409-410`). A transport error gets a timeout when
  its chain carries the context's deadline (`datasource.go:110-111`), and an
  internal error otherwise. `Datasource.ClassifyStatus` states this case
  split.
- **Handler bad requests reach the client as internal errors.** Every
  handler returns its bad request together with an error, and QueryData's
  `default` branch (`datasource.go:116-117`) replaces that response with
  `StatusInternal` and the error's own text. This covers the "json
  unmarshal" answers (`queries.go:33`, `201`, `300`) and the telemetry
  90-day refusal (`queries.go:196`). `Datasource.TelemetryOutsideWindowIsInternal`
  and `Datasource.UndecodableQueryIsInternal` state this. Only the
  time-range ceiling (`datasource.go:96-100`) reaches the client as a bad
  request.

## Model

| member | source | states |
|---|---|---|
| GoRuntime.Truncate | pkg/plugin/datasource.go:241 | `Duration.Truncate`: for a positive unit, the result is a multiple of the unit, lies between 0 and the duration, and is less than one unit away from it; a non-positive unit leaves the duration unchanged |
| GoRuntime.Sub | pkg/plugin/datasource.go:96 | the duration of a time range is the exact difference when it fits in a Duration, and is saturated to the minimum or maximum Duration otherwise |
| Grafana.AppendRow | pkg/plugin/queries.go:76 | `Frame.AppendRow` adds value j to the end of field j and changes nothing else |
| Grafana.AppendRowWellFormed | pkg/plugin/queries.go:76 | appending a fitting row keeps all fields the same length and adds exactly one row |
| Records.SeverityOf | pkg/internal/api_helpers.go:172-198 | the severity lies in 0..4, and it is 0 exactly for statuses that are not in the table |
| Records.SeverityMaintenance | pkg/internal/api_helpers.go:174 | under_maintenance has severity 1 |
| Records.SeverityUp | pkg/internal/api_helpers.go:175-183 | up, operational, Good, Information and information have severity 2 |
| Records.SeverityUpOther | pkg/internal/api_helpers.go:179-182 | NotApplicable, Advisory, Healthy and available have severity 2 |
| Records.SeverityDegraded | pkg/internal/api_helpers.go:184-187 | Degraded, Warning, degraded and disruption have severity 3 |
| Records.SeverityDown | pkg/internal/api_helpers.go:188-194 | down, Disruption, Critical, outage, degraded_performance, major_outage and partial_outage have severity 4 |
| Records.SeverityCaseSensitive | pkg/internal/api_helpers.go:196 | the lookup is case-sensitive: "Up", "DOWN", "Operational" and "" fall to the default 0 |
| Records.GraphValsFitGraphFrame | pkg/internal/api_helpers.go:27-50 | for every kind (also lines 77-100 and 127-150), the graph definition is an empty, well-formed frame with columns time and the measurement, and meta TimeSeriesMulti/Graph; the graph values are the time and the measurement, and they fit that frame |
| Records.TableFrameLayout | pkg/internal/api_helpers.go:52-66 | for every kind (also lines 102-116 and 152-165), the table definition is empty and well-formed, its columns are time, the measurement and then the dimension names, and its meta is TimeSeriesWide/Table |
| Records.TableValsFitTableFrame | pkg/internal/api_helpers.go:31-33 | the table values are the time, the measurement and the dimensions in column order: 5 values for errors and telemetry (lines 81-83), 4 for status changes (lines 131-133); they fit the table definition |
| Records.LabelsAreDimensions | pkg/internal/api_helpers.go:68-70 | the labels map each dimension name to its value, exactly those names; only the measurement field of a graph frame carries labels, and no table field does |
| Records.KeyJoinsDimensions | pkg/internal/api_helpers.go:35-37 | the key is the dimensions joined with "-" (likewise lines 85-87 and 135-137) |
| Records.EqualDimensionsEqualKeys | pkg/internal/api_helpers.go:35-37 | records with equal dimensions have equal keys, whatever their other fields |
| Records.KeyCollision | pkg/internal/api_helpers.go:35-37 | two error records with different dimensions ("a-b","c" and "a","b-c") have the same key |
| Records.KeyInjectiveWithoutDashes | pkg/internal/api_helpers.go:35-37 | when no dimension but the last contains "-", equal keys imply equal dimensions |
| FrameBuilder.StatusOrdinal | pkg/plugin/queries.go:423-432 | the ordinal lies in 0..2; it is 1 exactly for "degraded" and 2 exactly for "down", and every other status (including up, operational and unknown text) is 0 |
| FrameBuilder.SeverityIsOrdinalPlusTwo | pkg/plugin/queries.go:423-432 | on up, operational, degraded and down, the 0..4 severity is the handler's ordinal plus 2 |
| FrameBuilder.StatusTablesDiffer | pkg/plugin/queries.go:423-432 | the two tables disagree beyond that offset: under_maintenance, Degraded and up map to 0 here and to 1, 3 and 2 in the 0..4 table |
| FrameBuilder.FrameForLayout | pkg/plugin/queries.go:59-95 | a new graph or table frame has no rows, and its column types are those of its layout for the record's kind |
| FrameBuilder.RowForFits | pkg/plugin/queries.go:76 | the row a record contributes fits any frame with its layout's column types (also line 96) |
| FrameBuilder.AppendRowKeepsTypes | pkg/plugin/queries.go:76 | appending a row keeps a frame's column types |
| FrameBuilder.Frames | pkg/plugin/queries.go:50-97 | the frame map built from records of one kind holds only frames with that layout's column types |
| FrameBuilder.GroupNonEmpty | pkg/plugin/queries.go:50-57 | a key has records in its group exactly when some record with a parseable timestamp has that key |
| FrameBuilder.FramesAreGroups | pkg/plugin/queries.go:50-97 | a key is in the frame map exactly when its group is non-empty; its frame is the layout's empty frame with one row per record of the group, in input order; records with unparseable timestamps are skipped |
| FrameBuilder.FrameKeys | pkg/plugin/queries.go:50-57 | the keys of the frame map are exactly the keys of the records whose timestamp parses |
| FrameBuilder.GroupFrameRows | pkg/plugin/queries.go:76-96 | a group's frame is well formed and has exactly as many rows as the group has records |
| FrameBuilder.BuildFrameMaps | pkg/plugin/queries.go:46-97 | the record loop produces exactly the graph map and the table map that `Frames` specifies |
| FrameBuilder.AppendFramesOf | pkg/plugin/queries.go:99-101 | ranging over a frame map appends every frame exactly once, in the order of a duplicate-free enumeration of its keys |
| FrameBuilder.CollectFrames | pkg/plugin/queries.go:99-110 | the result is all graph frames, then all table frames unless the query comes from alerting, and then no table frames |
| FrameBuilder.ListedFrames | pkg/plugin/queries.go:99-110 | listing a frame map gives one frame per parsed key, and each is that key's group frame with the layout's metadata |
| FrameBuilder.WithStatusMappings | pkg/plugin/queries.go:382-395 | every field but the first gets the 0/1/2 mappings ("(0) up" green, "(1) degraded" yellow, "(2) error" red); the time field and the meta are untouched |
| FrameBuilder.SetStatusMappings | pkg/plugin/queries.go:382-395 | the nested loop puts the mappings on each frame, frame by frame |
| FrameBuilder.StatusMappingsKeepData | pkg/plugin/queries.go:382-395 | setting the mappings changes no name, label, value, type or row count, and it keeps a frame well formed |
| FrameBuilder.StatusMappingsIdempotent | pkg/plugin/queries.go:387-393 | setting the mappings twice is the same as setting them once |
| Pagination.NilIfEmpty | pkg/plugin/queries.go:441-447 | a filter is dropped exactly when it is absent or empty, and is otherwise passed on unchanged |
| Pagination.RequestsFollowCursors | pkg/plugin/queries.go:154-170 | a stream sends at most `budget` requests, starting with the initial parameters; each later request carries the cursor of the previous response, which asked to continue; a stream that stops early stops on a response that does not continue |
| Pagination.AtMostMaxPageCountCalls | pkg/plugin/queries.go:154 | one stream makes between 1 and maxPageCount = 20 calls |
| Pagination.StreamCollectsPages | pkg/plugin/queries.go:154-170 | a stream's entries are the pages' entries in request order; it fails exactly when its last request got a transport error, and then with that error |
| Pagination.StreamOfKind | pkg/plugin/queries.go:166 | a typed endpoint's stream holds only records of the endpoint's kind |
| Pagination.ErrorParamVariants | pkg/plugin/queries.go:116-135 | the errors fetch asks for own data, and also for shared data (OnlyShared = true) exactly when include-shared is set, with the same range and filters |
| Pagination.StreamStart | pkg/plugin/queries.go:145-152 | a stream starts without a cursor, from its variant's range, monitors and shared flag, with empty check and instance filters dropped |
| Pagination.PageThrough | pkg/plugin/queries.go:144-172 | one stream appends exactly the entries of its pages to its own slot, touches no other slot, and returns the stream's error |
| Pagination.ByTimeIsStrictWeakOrder | pkg/plugin/queries.go:186-188 | comparing timestamps by strToTime is a strict weak order |
| Pagination.FirstError | pkg/plugin/queries.go:175-177 | the fetch fails exactly when some stream failed, and then with one of the streams' errors |
| Pagination.FirstErrorAt | pkg/plugin/queries.go:175-177 | that error is the error of the first failing stream in slot order |
| Pagination.FetchAllMonitorErrors | pkg/plugin/queries.go:115-190 | slots, concatenation and in-place stable sort compute exactly `MonitorErrorsFetch`: the first stream error, or the merged entries sorted by time |
| Pagination.ConcatIsMergeInput | pkg/plugin/queries.go:179-185 | skipping empty slots does not change the concatenation: own entries, then shared entries when asked for |
| Pagination.MergedErrorsSorted | pkg/plugin/queries.go:186-188 | the merged errors are in ascending time order |
| Pagination.MergedErrorsPermute | pkg/plugin/queries.go:179-188 | the merged errors are a permutation of own entries followed by shared entries |
| Pagination.MergedErrorsStable | pkg/plugin/queries.go:186-188 | records with equal times keep their fetch order: those from the own-data stream come first, then those from the shared stream |
| Pagination.MergedErrorsOfKind | pkg/plugin/queries.go:179-189 | the merged errors are all error-count records |
| Pagination.FetchAllStatusPageMonitor | pkg/plugin/queries.go:400-421 | the loop returns the stream's first transport error, or all entries of up to 20 pages followed by cursor |
| Queries.EnsureTelemetryRequestWithinLast90Days | pkg/plugin/queries.go:449-458 | refuses, with errTelemetryRequestedOutsideBounds, exactly a start strictly earlier than 90 days before now |
| Queries.TelemetryWindowExamples | pkg/plugin/queries_test.go:9-15 | a start 89 days ago is accepted and one 91 days ago is refused, as the test expects; the other two cases follow from the strict `Before` at queries.go:449-458: a start exactly 90 days ago is accepted, one 90 days and 1 ns ago is refused |
| Queries.TelemetryWindowMonotone | pkg/plugin/queries.go:449-458 | any later start than an accepted one is accepted |
| Queries.QueryMonitorErrors | pkg/plugin/queries.go:30-113 | an undecodable query gives the handler's bad request with the decoding error (QueryData reports it as internal); a fetch error gives an empty response and that error; no records gives an empty response; otherwise the graph frames and, unless from alerting, the table frames of the merged errors |
| Queries.TelemetryRequest | pkg/plugin/queries.go:204-211 | the telemetry request carries the range, monitors and include-shared flag of the query, with empty check and instance filters dropped |
| Queries.QueryMonitorTelemetry | pkg/plugin/queries.go:193-293 | a start more than 90 days ago is refused before decoding, with the handler's bad request and that error (QueryData reports it as internal); otherwise as the errors handler, over one unpaginated call |
| Queries.StatusChangesOfKind | pkg/plugin/queries.go:400-421 | the status fetch returns only status-change records |
| Queries.QueryMonitorStatusPageChanges | pkg/plugin/queries.go:296-398 | as the errors handler over the unsorted status changes, with the 0/1/2 value mappings on every non-time field of every frame |
| Queries.HandlerFrames | pkg/plugin/queries.go:99-110 | a handler returns n graph frames (n = number of parsed keys) and, unless from alerting, n table frames after them; each is its key's group frame; graph meta is TimeSeriesMulti with no visualisation, table meta is TimeSeriesWide/Table |
| Datasource.EnsureTimeRangeWithinLimits | pkg/plugin/datasource.go:240-246 | fails, with "time range cannot exceed 90 days", exactly when the duration truncated to hours exceeds 90 days |
| Datasource.TimeRangeCeiling | pkg/plugin/datasource.go:240-246 | because of the truncation, a range is refused exactly when it is at least 90 days and one hour long |
| Datasource.TimeRangeCeilingExamples | pkg/plugin/datasource.go:240-246 | 90 days and 90 days 59 minutes pass; 90 days and one hour fails |
| Datasource.Classify | pkg/plugin/datasource.go:107-118 | no error keeps the handler's response; any error replaces it with an error response without frames; a deadline is a timeout; an internal error carries the error's message |
| Datasource.ClassifyStatus | pkg/plugin/datasource.go:107-118 | the status is timeout, bad gateway, validation failure or internal in that order of precedence, each exactly when its sentinel is the first that matches, and never bad request |
| Datasource.ClassifyOverrides | pkg/plugin/datasource.go:107-118 | when there is an error, the response the handler built does not matter |
| Datasource.TelemetryOutsideWindowIsInternal | pkg/plugin/datasource.go:116-117 | a telemetry query inside the ceiling whose start is before the 90-day window is answered with StatusInternal and the window error's text, not with the handler's bad request (queries.go:194-197) |
| Datasource.UndecodableQueryIsInternal | pkg/plugin/datasource.go:116-117 | a query model that does not decode, with an error carrying no sentinel, is answered with StatusInternal and the decoder's text, not with the "json unmarshal" bad request |
| Datasource.Query | pkg/plugin/datasource.go:126-142 | an undecodable query model gives a bad request with the decoding error (QueryData reports it as internal); the three query types go to their handlers; any other type gives an empty response and no error |
| Datasource.Respond | pkg/plugin/datasource.go:95-118 | one query is answered as a bad request when its range is over the ceiling, and otherwise with the classified outcome of `query` |
| Datasource.QueryData | pkg/plugin/datasource.go:91-124 | every RefID gets a response; the last query with a RefID decides it; ranges over the ceiling are bad requests and their handler is not run; the others get `query`'s classified outcome; the call never fails |
| Datasource.CheckHealth | pkg/plugin/datasource.go:148-172 | a client error is returned as is; 200 is healthy ("Data source is working!"); 401 is "Unauthorized: Invalid API Key"; any other code is an error carrying its status line; healthy exactly on 200 |
| Resources.ResourceMonitorList | pkg/plugin/resources.go:17-42 | takes the monitor endpoint as a client function, like the other two lists; a client error gives the zero response and the error; otherwise one option per monitor in list order, labelled with its name and valued with its logical name |
| Resources.CheckOptionsArePairs | pkg/plugin/resources.go:55-62 | the unsorted check options are exactly one per (entry, check) pair: "monitor:check name" valued with the check's logical name, as many as there are pairs, and nothing else |
| Resources.ByLabelStrictWeakOrder | pkg/plugin/resources.go:64-66 | comparing options by label is a strict weak order, under which options tie exactly when their labels are equal |
| Resources.ResourceCheckList | pkg/plugin/resources.go:44-77 | a client error gives the zero response and the error; otherwise the options are sorted by label and are a permutation of the per-pair options |
| Resources.AllInstancesMembers | pkg/plugin/resources.go:89-92 | the concatenated instance list holds exactly the instances of the entries |
| Resources.SortedDistinctStrict | pkg/plugin/resources.go:93-95 | a sorted list without duplicates is strictly ascending |
| Resources.InstanceOptions | pkg/plugin/resources.go:97-103 | one option per instance, in order, with label == value == the instance |
| Resources.InstanceOptionValues | pkg/plugin/resources.go:97-103 | those options' values are exactly the instances |
| Resources.ResourceInstanceList | pkg/plugin/resources.go:79-114 | a client error gives the zero response and the error; otherwise label == value for each option, strictly ascending values (so no duplicates), and exactly the instances found in some entry |
| Resources.SortedCopy | pkg/plugin/resources.go:95 | sorting a copy in place returns `SortSeq` of it |
| Utils.UniqStrings | pkg/plugin/utils.go:3-15 | the output has no duplicates, holds exactly the input's strings, and its length is the number of distinct inputs, at most the input's length |
| Utils.ElementsBound | pkg/plugin/utils.go:3-15 | a slice has at most as many distinct strings as elements |
| Utils.DistinctCardinality | pkg/plugin/utils.go:11-14 | a duplicate-free output is as long as its set of elements |
| Utils.DistinctPermutation | pkg/plugin/utils.go:3-15 | a duplicate-free input comes back as a permutation of itself (two duplicate-free lists with the same elements have the same multiset) |
| Utils.PermutationKeepsDistinct | pkg/plugin/resources.go:93-95 | sorting the de-duplicated instances keeps them duplicate-free |
| Sorting.InsertionSort | pkg/plugin/queries.go:186-188 | the in-place sort leaves the array equal to `SortSeq` of its old contents |
| Sorting.SortSeqSorted | pkg/plugin/queries.go:186-188 | under a strict weak order, `SortSeq` is sorted |
| Sorting.SortSeqPermutes | pkg/plugin/queries.go:186-188 | `SortSeq` is a permutation of its input |
| Sorting.SortSeqStable | pkg/plugin/queries.go:186-188 | `SortSeq` keeps equal elements in input order, as sort.SliceStable does |
| Sorting.LexLessStrictWeakOrder | pkg/plugin/resources.go:95 | Go's `<` on strings, modelled as lexicographic comparison, is a strict weak order, and two strings tie exactly when they are equal |

## Left out

- Concurrency. The errgroup goroutines of the errors fetch run in slot order. Slots are disjoint, so there is no interleaving to model. Context cancellation and deadlines are not modelled; `DeadlineExceeded` is only a sentinel an error may carry.
- Pagination.FetchAllMonitorErrors: when both streams fail, Go returns whichever error came first in time; the model returns the error of the first failing slot.
- The network and plugin plumbing: `NewDatasource`, `Dispose`, `withAPIKey`, `CallResource` routing and query-string parsing, HTTP transport and TLS. These are I/O and library calls. The remote API is modelled as total functions from request parameters to responses.
- Library behaviour that the model does not show. `time.Parse` with RFC 3339 (section 5.6 of RFC 3339), `strToTime`, `json.Unmarshal`, `json.Marshal` and `time.Now` are parameters. Resource responses carry the option list instead of its JSON text.
- The declaration of `errTelemetryRequestedOutsideBounds` is not part of this model, so its text is a parameter of `Env`.
- Float32 telemetry values are carried as opaque 32-bit payloads; no floating-point arithmetic is done on them.
- Logging.
- Queries.QueryMonitorTelemetry: requires that the 200 body is present, because Go dereferences it unchecked and would panic. The panic is not modelled.
- Queries.QueryMonitorStatusPageChanges: requires every page's body to be present, for the same reason.
- Pagination.FetchAllStatusPageMonitor: requires every page's body to be present, for the same reason.
- Datasource.QueryData: requires the body conditions above for each query, and a typed API (`TypedApi`: each endpoint returns records of its own kind). Go's static types guarantee the latter.
- Resources.ResourceCheckList: promises only sortedness and the multiset of options. Go's `sort.Slice` is not stable, so the order of equal labels is unspecified. The model's stable insertion sort is one of the allowed orders.
- The frames are values. Go appends rows to frames through pointers held in maps; the model rebuilds the map entry. No frame is shared between maps in the source, so no aliasing is lost.
- HTTP status codes other than 200 and 401 are kept as integers with their status line; the set of codes the server may send is not modelled.
- The `if err != nil` at `queries.go:378-380` is unreachable: `err` is always nil there. The model has no counterpart for it.
- Records.Record, Resources.ResourceMonitorList, Resources.ResourceCheckList, Resources.ResourceInstanceList and Pagination.Stream: the model takes as present every pointer Go dereferences without a check. These are the record fields (`api_helpers.go:24-169`), `*resp.JSON200` and the monitor, check and instance fields (`resources.go:23-91`), and `*response.Entries` and `Metadata.CursorAfter` (`queries.go:166-167`). Go panics on each of them when it is nil; the panics are not modelled.
- Sorting.LexLess compares Dafny characters (code points), while Go's `<` on strings compares bytes; the two orders agree on valid UTF-8 only.
- The `GetTimestamp` methods (`api_helpers.go:23-25`, `73-75`, `123-125`) are not modelled: the handlers parse the `Timestamp` field themselves with `time.Parse` (`queries.go:51`), and the model follows the handlers.
- The build configuration (`Magefile.go`, `build_info.go`) is not part of this model.
