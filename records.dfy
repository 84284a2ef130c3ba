/**
 * The three kinds of monitoring record and the FrameData contract they
 * share: timestamp, grouping key, graph and table row values, labels and
 * the graph and table frame layouts.
 */
module Records {
  import opened Wrappers
  import opened GoRuntime
  import opened Grafana

  /**
   * A record returned by the monitoring API. Every pointer field of the
   * generated API types is taken to be present.
   */
  datatype Record =
    | MonitorErrorCount(timestamp: string, count: Int64, instance: string, check: string,
                        monitorLogicalName: string)
    | MonitorTelemetry(timestamp: string, value: Float32, instance: string, check: string,
                       monitorLogicalName: string)
    | StatusPageComponentChange(timestamp: string, status: string, component: string,
                                monitorLogicalName: string)

  /** The three record kinds; each endpoint returns records of one kind only. */
  datatype Kind = ErrorKind | TelemetryKind | StatusKind

  function KindOf(r: Record): Kind {
    match r
    case MonitorErrorCount(_, _, _, _, _) => ErrorKind
    case MonitorTelemetry(_, _, _, _, _) => TelemetryKind
    case StatusPageComponentChange(_, _, _, _) => StatusKind
  }

  predicate AllOfKind(rs: seq<Record>, kind: Kind) {
    forall i | 0 <= i < |rs| :: KindOf(rs[i]) == kind
  }

  /** The status vocabulary of the record model, mapped to an ordered severity. */
  const SeverityTable: map<string, Int8> := map[
    "under_maintenance" := 1,
    "up" := 2,
    "operational" := 2,
    "Good" := 2,
    "Information" := 2,
    "NotApplicable" := 2,
    "Advisory" := 2,
    "Healthy" := 2,
    "available" := 2,
    "information" := 2,
    "Degraded" := 3,
    "Warning" := 3,
    "degraded" := 3,
    "disruption" := 3,
    "down" := 4,
    "Disruption" := 4,
    "Critical" := 4,
    "outage" := 4,
    "degraded_performance" := 4,
    "major_outage" := 4,
    "partial_outage" := 4
  ]

  /**
   * spcStatusToInt of the record model: the severity of a status text,
   * 0 for a text outside the vocabulary (Go's zero value for a missing key).
   */
  function SeverityOf(status: string): (r: Int8)
    ensures 0 <= r <= 4
    ensures r == 0 <==> status !in SeverityTable
  {
    if status in SeverityTable then SeverityTable[status] else 0
  }

  /** The value each record kind measures, as stored in its frames. */
  function Measurement(r: Record): Value {
    match r
    case MonitorErrorCount(_, count, _, _, _) => Int64Value(count)
    case MonitorTelemetry(_, value, _, _, _) => Float32Value(value)
    case StatusPageComponentChange(_, status, _, _) => Int8Value(SeverityOf(status))
  }

  /** The name and element type of the measurement column. */
  function MeasurementName(r: Record): string {
    match r
    case MonitorErrorCount(_, _, _, _, _) => "count"
    case MonitorTelemetry(_, _, _, _, _) => "response time (ms)"
    case StatusPageComponentChange(_, _, _, _) => "status"
  }

  function MeasurementType(r: Record): FieldType {
    match r
    case MonitorErrorCount(_, _, _, _, _) => Int64Field
    case MonitorTelemetry(_, _, _, _, _) => Float32Field
    case StatusPageComponentChange(_, _, _, _) => Int8Field
  }

  /** The identifying dimensions of a record, as (label name, value) columns in table order. */
  function DimensionNames(r: Record): seq<string> {
    if r.StatusPageComponentChange? then ["component", "monitor"] else ["instance", "check", "monitor"]
  }

  function Dimensions(r: Record): (d: seq<string>)
    ensures |d| == |DimensionNames(r)|
  {
    match r
    case MonitorErrorCount(_, _, instance, check, monitor) => [instance, check, monitor]
    case MonitorTelemetry(_, _, instance, check, monitor) => [instance, check, monitor]
    case StatusPageComponentChange(_, _, component, monitor) => [component, monitor]
  }

  /** GetGraphVals: the row appended to the record's graph frame. */
  function GetGraphVals(r: Record, timestamp: int): seq<Value> {
    match r
    case MonitorErrorCount(_, count, _, _, _) => [TimeValue(timestamp), Int64Value(count)]
    case MonitorTelemetry(_, value, _, _, _) => [TimeValue(timestamp), Float32Value(value)]
    case StatusPageComponentChange(_, status, _, _) => [TimeValue(timestamp), Int8Value(SeverityOf(status))]
  }

  /** GetTableVals: the row appended to the record's table frame. */
  function GetTableVals(r: Record, timestamp: int): seq<Value> {
    match r
    case MonitorErrorCount(_, count, instance, check, monitor) =>
      [TimeValue(timestamp), Int64Value(count), StringValue(instance), StringValue(check), StringValue(monitor)]
    case MonitorTelemetry(_, value, instance, check, monitor) =>
      [TimeValue(timestamp), Float32Value(value), StringValue(instance), StringValue(check), StringValue(monitor)]
    case StatusPageComponentChange(_, status, component, monitor) =>
      [TimeValue(timestamp), Int8Value(SeverityOf(status)), StringValue(component), StringValue(monitor)]
  }

  /** GetKey: the grouping key, the dimension values joined with "-". */
  function GetKey(r: Record): string {
    match r
    case MonitorErrorCount(_, _, instance, check, monitor) => instance + "-" + check + "-" + monitor
    case MonitorTelemetry(_, _, instance, check, monitor) => instance + "-" + check + "-" + monitor
    case StatusPageComponentChange(_, _, component, monitor) => component + "-" + monitor
  }

  /** getLabels: the labels attached to the measurement column of the graph frame. */
  function GetLabels(r: Record): map<string, string> {
    match r
    case MonitorErrorCount(_, _, instance, check, monitor) =>
      map["instance" := instance, "check" := check, "monitor" := monitor]
    case MonitorTelemetry(_, _, instance, check, monitor) =>
      map["instance" := instance, "check" := check, "monitor" := monitor]
    case StatusPageComponentChange(_, _, component, monitor) =>
      map["component" := component, "monitor" := monitor]
  }

  /** GetGraphFrameDefinition: an empty time series frame with one labelled measurement column. */
  function GetGraphFrameDefinition(r: Record): Frame {
    Frame([NewField("time", None, TimeField),
           NewField(MeasurementName(r), Some(GetLabels(r)), MeasurementType(r))],
          FrameMeta(TimeSeriesMulti, Some(Graph)))
  }

  /** GetTableFrameDefinition: an empty wide frame with the dimensions as plain string columns. */
  function GetTableFrameDefinition(r: Record): Frame {
    var dimensionFields :=
      if r.StatusPageComponentChange? then
        [NewField("component", None, StringField), NewField("monitor", None, StringField)]
      else
        [NewField("instance", None, StringField), NewField("check", None, StringField),
         NewField("monitor", None, StringField)];
    Frame([NewField("time", None, TimeField), NewField(MeasurementName(r), None, MeasurementType(r))]
          + dimensionFields,
          FrameMeta(TimeSeriesWide, Some(Table)))
  }

  /** The names of a frame's fields, in order. */
  function FieldNames(f: Frame): (names: seq<string>)
    ensures |names| == |f.fields|
    ensures forall j | 0 <= j < |f.fields| :: names[j] == f.fields[j].name
  {
    seq(|f.fields|, j requires 0 <= j < |f.fields| => f.fields[j].name)
  }

  /** Plain string cells for a sequence of dimension values. */
  function StringValues(s: seq<string>): (vs: seq<Value>)
    ensures |vs| == |s|
    ensures forall k | 0 <= k < |s| :: vs[k] == StringValue(s[k])
  {
    seq(|s|, k requires 0 <= k < |s| => StringValue(s[k]))
  }

  /**
   * The graph row fits the graph frame definition: two values, the time and
   * then the measurement, each of its column's type; the definition is an
   * empty, well-formed TimeSeriesMulti/Graph frame.
   */
  lemma GraphValsFitGraphFrame(r: Record, timestamp: int)
    ensures var def := GetGraphFrameDefinition(r);
      && WellFormed(def) && RowCount(def) == 0
      && RowFits(def, GetGraphVals(r, timestamp))
      && GetGraphVals(r, timestamp) == [TimeValue(timestamp), Measurement(r)]
      && FieldNames(def) == ["time", MeasurementName(r)]
      && def.meta == FrameMeta(TimeSeriesMulti, Some(Graph))
  {
  }

  /**
   * The table frame definition is an empty, well-formed TimeSeriesWide/Table
   * frame whose columns are time, the measurement, then each dimension.
   */
  lemma TableFrameLayout(r: Record)
    ensures var def := GetTableFrameDefinition(r);
      && WellFormed(def) && RowCount(def) == 0
      && FieldNames(def) == ["time", MeasurementName(r)] + DimensionNames(r)
      && def.meta == FrameMeta(TimeSeriesWide, Some(Table))
  {
    var def := GetTableFrameDefinition(r);
    if r.StatusPageComponentChange? {
      assert |def.fields| == 4;
      assert FieldNames(def) == ["time", "status", "component", "monitor"];
    } else {
      assert |def.fields| == 5;
      assert FieldNames(def) == ["time", MeasurementName(r), "instance", "check", "monitor"];
    }
  }

  /**
   * The table row fits the table frame definition: its arity is the field
   * count (5 for errors and telemetry, 4 for status changes) and the values
   * come in column order: time, measurement, then each dimension.
   */
  lemma TableValsFitTableFrame(r: Record, timestamp: int)
    ensures && RowFits(GetTableFrameDefinition(r), GetTableVals(r, timestamp))
      && |GetTableVals(r, timestamp)| == (if r.StatusPageComponentChange? then 4 else 5)
      && GetTableVals(r, timestamp)
         == [TimeValue(timestamp), Measurement(r)] + StringValues(Dimensions(r))
  {
    var vals := GetTableVals(r, timestamp);
    var dims := StringValues(Dimensions(r));
    if r.StatusPageComponentChange? {
      assert |GetTableFrameDefinition(r).fields| == 4;
      assert vals == [TimeValue(timestamp), Measurement(r)] + dims;
    } else {
      assert |GetTableFrameDefinition(r).fields| == 5;
      assert vals == [TimeValue(timestamp), Measurement(r)] + dims;
    }
  }

  /**
   * The labels of the graph frame's measurement column are exactly the
   * record's dimensions under their names; no other column of either frame
   * carries labels.
   */
  lemma LabelsAreDimensions(r: Record)
    ensures GetLabels(r).Keys == set k | 0 <= k < |DimensionNames(r)| :: DimensionNames(r)[k]
    ensures forall k | 0 <= k < |DimensionNames(r)| :: GetLabels(r)[DimensionNames(r)[k]] == Dimensions(r)[k]
    ensures GetGraphFrameDefinition(r).fields[0].labels == None
    ensures GetGraphFrameDefinition(r).fields[1].labels == Some(GetLabels(r))
    ensures forall j | 0 <= j < |GetTableFrameDefinition(r).fields| ::
      GetTableFrameDefinition(r).fields[j].labels == None
  {
    var names := DimensionNames(r);
    if r.StatusPageComponentChange? {
      assert names[0] == "component" && names[1] == "monitor";
    } else {
      assert names[0] == "instance" && names[1] == "check" && names[2] == "monitor";
    }
  }

  /** The dash join of a non-empty sequence of strings. */
  function JoinDash(parts: seq<string>): string
    requires |parts| > 0
    decreases |parts|
  {
    if |parts| == 1 then parts[0] else parts[0] + "-" + JoinDash(parts[1..])
  }

  /** The key is the dash join of the dimension values, so equal dimensions give equal keys. */
  lemma KeyJoinsDimensions(r: Record)
    ensures GetKey(r) == JoinDash(Dimensions(r))
  {
    var d := Dimensions(r);
    if r.StatusPageComponentChange? {
      assert d[1..] == [d[1]];
    } else {
      assert d[1..][1..] == [d[2]];
      assert JoinDash(d[1..]) == d[1] + "-" + d[2];
    }
  }

  /** Records with equal dimensions are grouped under the same key, whatever their other fields. */
  lemma EqualDimensionsEqualKeys(r1: Record, r2: Record)
    requires Dimensions(r1) == Dimensions(r2)
    ensures GetKey(r1) == GetKey(r2)
  {
    KeyJoinsDimensions(r1);
    KeyJoinsDimensions(r2);
  }

  /** The key is not injective: these two error records differ but share the key "a-b-c-m". */
  lemma KeyCollision()
    ensures var r1 := MonitorErrorCount("t", 1, "a-b", "c", "m");
            var r2 := MonitorErrorCount("t", 1, "a", "b-c", "m");
            Dimensions(r1) != Dimensions(r2) && GetKey(r1) == GetKey(r2)
  {
    var r1 := MonitorErrorCount("t", 1, "a-b", "c", "m");
    var r2 := MonitorErrorCount("t", 1, "a", "b-c", "m");
    assert Dimensions(r1)[0] != Dimensions(r2)[0] by {
      assert |Dimensions(r1)[0]| == 3 && |Dimensions(r2)[0]| == 1;
    }
    assert GetKey(r1) == "a-b-c-m" == GetKey(r2);
  }

  predicate DashFree(s: string) {
    forall k | 0 <= k < |s| :: s[k] != '-'
  }

  /** A dash join splits back uniquely at its first dash when the head is dash-free. */
  lemma SplitAtFirstDash(a: string, b: string, a': string, b': string)
    requires DashFree(a) && DashFree(a')
    requires a + "-" + b == a' + "-" + b'
    ensures a == a' && b == b'
  {
    var s := a + "-" + b;
    assert |a| == |a'| by {
      assert s[|a|] == '-';
      assert s[|a'|] == '-';
    }
    assert a == s[..|a|] == a';
    assert b == s[|a| + 1..] == b';
  }

  /**
   * Records of the same shape whose dimensions, the last one aside,
   * contain no dash get equal keys only when their dimensions are equal.
   */
  lemma KeyInjectiveWithoutDashes(r1: Record, r2: Record)
    requires r1.StatusPageComponentChange? == r2.StatusPageComponentChange?
    requires forall k | 0 <= k < |Dimensions(r1)| - 1 :: DashFree(Dimensions(r1)[k]) && DashFree(Dimensions(r2)[k])
    requires GetKey(r1) == GetKey(r2)
    ensures Dimensions(r1) == Dimensions(r2)
  {
    var d1, d2 := Dimensions(r1), Dimensions(r2);
    if r1.StatusPageComponentChange? {
      SplitAtFirstDash(d1[0], d1[1], d2[0], d2[1]);
    } else {
      assert GetKey(r1) == d1[0] + "-" + (d1[1] + "-" + d1[2]);
      assert GetKey(r2) == d2[0] + "-" + (d2[1] + "-" + d2[2]);
      SplitAtFirstDash(d1[0], d1[1] + "-" + d1[2], d2[0], d2[1] + "-" + d2[2]);
      SplitAtFirstDash(d1[1], d1[2], d2[1], d2[2]);
    }
  }

  /** Maintenance sits below the up family. */
  lemma SeverityMaintenance()
    ensures SeverityOf("under_maintenance") == 1
  {
  }

  /** The up family. */
  lemma SeverityUp()
    ensures SeverityOf("up") == SeverityOf("operational") == SeverityOf("Good") == 2
    ensures SeverityOf("Information") == SeverityOf("information") == 2
  {
  }

  /** The rest of the up family. */
  lemma SeverityUpOther()
    ensures SeverityOf("NotApplicable") == SeverityOf("Advisory") == SeverityOf("Healthy") == 2
    ensures SeverityOf("available") == 2
  {
  }

  /** The degraded family; "disruption" is degraded while "Disruption" is down. */
  lemma SeverityDegraded()
    ensures SeverityOf("Degraded") == SeverityOf("Warning") == SeverityOf("degraded") == SeverityOf("disruption") == 3
  {
  }

  /** The down family, including "Disruption" and "degraded_performance". */
  lemma SeverityDown()
    ensures SeverityOf("down") == SeverityOf("Disruption") == SeverityOf("Critical") == SeverityOf("outage") == 4
    ensures SeverityOf("degraded_performance") == SeverityOf("major_outage") == SeverityOf("partial_outage") == 4
  {
  }

  /** Lookup is case-sensitive: a status outside the vocabulary, however close, is unknown. */
  lemma SeverityCaseSensitive()
    ensures SeverityOf("Up") == 0 && SeverityOf("DOWN") == 0 && SeverityOf("Operational") == 0
    ensures SeverityOf("") == 0
  {
  }
}
