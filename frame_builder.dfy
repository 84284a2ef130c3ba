/**
 * The frame building shared by the three query handlers: records are
 * bucketed by their key into one graph frame and one table frame per key,
 * rows are appended in input order, records whose timestamp does not parse
 * are skipped, and the frames are then listed in map iteration order.
 *
 * The handlers build their frames inline rather than through the record
 * model's frame definitions: the graph frames carry no preferred
 * visualisation, and status changes are measured with the handler's own
 * 0/1/2 status table.
 */
module FrameBuilder {
  import opened Wrappers
  import opened GoRuntime
  import opened Grafana
  import opened Records

  /** spcStatusToInt of the query handlers: up and operational 0, degraded 1, down 2, anything else 0. */
  function StatusOrdinal(status: string): (r: Int8)
    ensures 0 <= r <= 2
    ensures r == 1 <==> status == "degraded"
    ensures r == 2 <==> status == "down"
  {
    var statuses := map["up" := 0, "operational" := 0, "degraded" := 1, "down" := 2];
    if status in statuses then statuses[status] else 0
  }

  /**
   * On the four statuses both tables know, the record model's severity is
   * the handler's ordinal shifted by two.
   */
  lemma SeverityIsOrdinalPlusTwo(status: string)
    requires status in {"up", "operational", "degraded", "down"}
    ensures SeverityOf(status) == StatusOrdinal(status) + 2
  {
  }

  /** The two status tables are not the same mapping: they disagree on known texts. */
  lemma StatusTablesDiffer()
    ensures StatusOrdinal("under_maintenance") == 0 && SeverityOf("under_maintenance") == 1
    ensures StatusOrdinal("Degraded") == 0 && SeverityOf("Degraded") == 3
    ensures StatusOrdinal("up") == 0 && SeverityOf("up") == 2
  {
  }

  /** The measurement a handler stores: the status column holds the handler's ordinal. */
  function HandlerMeasurement(r: Record): Value {
    if r.StatusPageComponentChange? then Int8Value(StatusOrdinal(r.status)) else Measurement(r)
  }

  /** The two frame sets a handler builds. */
  datatype Layout = GraphLayout | TableLayout

  /**
   * The empty frame a handler creates for a new key: the graph frame is
   * TimeSeriesMulti with no preferred visualisation, the table frame is
   * TimeSeriesWide shown as a table.
   */
  function FrameFor(l: Layout, r: Record): Frame {
    match l
    case GraphLayout => GetGraphFrameDefinition(r).(meta := FrameMeta(TimeSeriesMulti, None))
    case TableLayout => GetTableFrameDefinition(r)
  }

  /** The row a handler appends for a record with the given time. */
  function RowFor(l: Layout, r: Record, time: int): seq<Value> {
    match l
    case GraphLayout => [TimeValue(time), HandlerMeasurement(r)]
    case TableLayout => [TimeValue(time), HandlerMeasurement(r)] + StringValues(Dimensions(r))
  }

  function MeasurementTypeOf(kind: Kind): FieldType {
    match kind
    case ErrorKind => Int64Field
    case TelemetryKind => Float32Field
    case StatusKind => Int8Field
  }

  /** The column types of a layout for a kind of record. */
  function ColumnTypes(l: Layout, kind: Kind): seq<FieldType> {
    match l
    case GraphLayout => [TimeField, MeasurementTypeOf(kind)]
    case TableLayout =>
      [TimeField, MeasurementTypeOf(kind)]
      + (if kind == StatusKind then [StringField, StringField] else [StringField, StringField, StringField])
  }

  function FieldTypes(f: Frame): (ts: seq<FieldType>)
    ensures |ts| == |f.fields|
    ensures forall j | 0 <= j < |f.fields| :: ts[j] == f.fields[j].fieldType
  {
    seq(|f.fields|, j requires 0 <= j < |f.fields| => f.fields[j].fieldType)
  }

  /** A new frame is empty and has its layout's columns for the record's kind. */
  lemma FrameForLayout(l: Layout, r: Record)
    ensures FieldTypes(FrameFor(l, r)) == ColumnTypes(l, KindOf(r))
    ensures forall j | 0 <= j < |FrameFor(l, r).fields| :: FrameFor(l, r).fields[j].values == []
  {
    var f := FrameFor(l, r);
    if l.GraphLayout? {
      assert |f.fields| == 2;
    } else if r.StatusPageComponentChange? {
      assert |f.fields| == 4;
    } else {
      assert |f.fields| == 5;
    }
  }

  /** A row of a record fits any frame of its layout and kind, whichever record created that frame. */
  lemma RowForFits(l: Layout, r: Record, time: int, f: Frame)
    requires FieldTypes(f) == ColumnTypes(l, KindOf(r))
    ensures RowFits(f, RowFor(l, r, time))
  {
    var row := RowFor(l, r, time);
    if l.TableLayout? {
      assert row[2..] == StringValues(Dimensions(r));
    }
  }

  /** Appending a fitting row keeps the column types. */
  lemma AppendRowKeepsTypes(f: Frame, row: seq<Value>)
    requires RowFits(f, row)
    ensures FieldTypes(AppendRow(f, row)) == FieldTypes(f)
  {
  }

  /** Every frame of the map has the layout's columns for the kind. */
  ghost predicate Typed(m: map<string, Frame>, l: Layout, kind: Kind) {
    forall k | k in m :: FieldTypes(m[k]) == ColumnTypes(l, kind)
  }

  /**
   * graphFrameMap / tableFrameMap after the handler's loop has seen rs:
   * each record whose time parses adds one row to the frame of its key,
   * created from that record when the key is new.
   */
  function Frames(l: Layout, kind: Kind, rs: seq<Record>, parse: string -> Option<int>): (m: map<string, Frame>)
    requires AllOfKind(rs, kind)
    ensures Typed(m, l, kind)
    decreases |rs|
  {
    if rs == [] then map[]
    else
      var m := Frames(l, kind, rs[..|rs| - 1], parse);
      var r := rs[|rs| - 1];
      var time := parse(r.timestamp);
      if time.None? then m
      else
        var key := GetKey(r);
        var f := if key in m then m[key] else FrameFor(l, r);
        FrameForLayout(l, r);
        RowForFits(l, r, time.value, f);
        AppendRowKeepsTypes(f, RowFor(l, r, time.value));
        m[key := AppendRow(f, RowFor(l, r, time.value))]
  }

  /** The records with a parseable time and the given key, with their times, in input order. */
  function Group(rs: seq<Record>, parse: string -> Option<int>, key: string): seq<(Record, int)>
    decreases |rs|
  {
    if rs == [] then []
    else
      var g := Group(rs[..|rs| - 1], parse, key);
      var r := rs[|rs| - 1];
      if parse(r.timestamp).Some? && GetKey(r) == key then g + [(r, parse(r.timestamp).value)] else g
  }

  /** A key has a group exactly when some record with a parseable time has that key. */
  lemma {:induction false} GroupNonEmpty(rs: seq<Record>, parse: string -> Option<int>, key: string)
    ensures Group(rs, parse, key) != [] <==>
      exists i | 0 <= i < |rs| :: parse(rs[i].timestamp).Some? && GetKey(rs[i]) == key
    decreases |rs|
  {
    if rs != [] {
      var p := rs[..|rs| - 1];
      GroupNonEmpty(p, parse, key);
      if exists i | 0 <= i < |p| :: parse(p[i].timestamp).Some? && GetKey(p[i]) == key {
        var i :| 0 <= i < |p| && parse(p[i].timestamp).Some? && GetKey(p[i]) == key;
        assert rs[i] == p[i];
      }
      if exists i | 0 <= i < |rs| :: parse(rs[i].timestamp).Some? && GetKey(rs[i]) == key {
        var i :| 0 <= i < |rs| && parse(rs[i].timestamp).Some? && GetKey(rs[i]) == key;
        if i < |p| {
          assert rs[i] == p[i];
        }
      }
    }
  }

  /** The rows of a group, in order. */
  function Rows(l: Layout, g: seq<(Record, int)>): (rows: seq<seq<Value>>)
    ensures |rows| == |g|
    ensures forall i | 0 <= i < |g| :: rows[i] == RowFor(l, g[i].0, g[i].1)
  {
    seq(|g|, i requires 0 <= i < |g| => RowFor(l, g[i].0, g[i].1))
  }

  /** The j-th cells of the rows. */
  function Column(rows: seq<seq<Value>>, j: nat): (c: seq<Value>)
    requires forall i | 0 <= i < |rows| :: j < |rows[i]|
    ensures |c| == |rows| && forall i | 0 <= i < |rows| :: c[i] == rows[i][j]
  {
    seq(|rows|, i requires 0 <= i < |rows| => rows[i][j])
  }

  /** A frame with the given rows written below its own, column by column. */
  function WithRows(f: Frame, rows: seq<seq<Value>>): (r: Frame)
    requires forall i | 0 <= i < |rows| :: |rows[i]| == |f.fields|
    ensures r.meta == f.meta && |r.fields| == |f.fields|
    ensures forall j | 0 <= j < |f.fields| ::
      r.fields[j] == f.fields[j].(values := f.fields[j].values + Column(rows, j))
  {
    Frame(seq(|f.fields|, j requires 0 <= j < |f.fields| =>
                f.fields[j].(values := f.fields[j].values + Column(rows, j))), f.meta)
  }

  /** Appending rows one at a time writes them below each other. */
  lemma AppendRowIsWithRows(f: Frame, rows: seq<seq<Value>>, row: seq<Value>)
    requires forall i | 0 <= i < |rows| :: |rows[i]| == |f.fields|
    requires RowFits(WithRows(f, rows), row)
    ensures AppendRow(WithRows(f, rows), row) == WithRows(f, rows + [row])
  {
    var a := AppendRow(WithRows(f, rows), row);
    var b := WithRows(f, rows + [row]);
    forall j | 0 <= j < |f.fields| ensures a.fields[j] == b.fields[j] {
      assert Column(rows + [row], j) == Column(rows, j) + [row[j]];
    }
  }

  /** A frame without rows is itself with no rows written. */
  lemma WithNoRows(f: Frame)
    ensures WithRows(f, []) == f
  {
    forall j | 0 <= j < |f.fields| ensures WithRows(f, []).fields[j] == f.fields[j] {
      assert f.fields[j].values + Column([], j) == f.fields[j].values;
    }
  }

  /** Every row of a layout has one cell per column of the frame its first record created. */
  lemma RowsFit(l: Layout, kind: Kind, g: seq<(Record, int)>, f: Frame)
    requires forall i | 0 <= i < |g| :: KindOf(g[i].0) == kind
    requires FieldTypes(f) == ColumnTypes(l, kind)
    ensures forall i | 0 <= i < |g| :: |Rows(l, g)[i]| == |f.fields|
  {
    forall i | 0 <= i < |g| ensures |Rows(l, g)[i]| == |f.fields| {
      RowForFits(l, g[i].0, g[i].1, f);
    }
  }

  /** The frame a handler builds for a group: created from its first record, one row per member. */
  function GroupFrame(l: Layout, kind: Kind, g: seq<(Record, int)>): Frame
    requires g != [] && forall i | 0 <= i < |g| :: KindOf(g[i].0) == kind
  {
    FrameForLayout(l, g[0].0);
    RowsFit(l, kind, g, FrameFor(l, g[0].0));
    WithRows(FrameFor(l, g[0].0), Rows(l, g))
  }

  /** Every member of a group is a record of rs. */
  lemma {:induction false} GroupOfKind(rs: seq<Record>, parse: string -> Option<int>, key: string, kind: Kind)
    requires AllOfKind(rs, kind)
    ensures forall i | 0 <= i < |Group(rs, parse, key)| :: KindOf(Group(rs, parse, key)[i].0) == kind
    decreases |rs|
  {
    if rs != [] {
      GroupOfKind(rs[..|rs| - 1], parse, key, kind);
    }
  }

  /**
   * The frame maps hold one frame per key of a record whose time parses,
   * and the frame of a key is the layout's frame for the first record with
   * that key, holding one row per record with that key, in input order.
   */
  lemma {:induction false} FramesAreGroups(l: Layout, kind: Kind, rs: seq<Record>, parse: string -> Option<int>,
                                           key: string)
    requires AllOfKind(rs, kind)
    ensures var g := Group(rs, parse, key);
      && (forall i | 0 <= i < |g| :: KindOf(g[i].0) == kind)
      && (key in Frames(l, kind, rs, parse) <==> Group(rs, parse, key) != [])
      && (key in Frames(l, kind, rs, parse) ==>
            Frames(l, kind, rs, parse)[key] == GroupFrame(l, kind, Group(rs, parse, key)))
    decreases |rs|
  {
    GroupOfKind(rs, parse, key, kind);
    if rs != [] {
      var p := rs[..|rs| - 1];
      var r := rs[|rs| - 1];
      FramesAreGroups(l, kind, p, parse, key);
      GroupOfKind(p, parse, key, kind);
      var time := parse(r.timestamp);
      if time.Some? && GetKey(r) == key {
        var g := Group(p, parse, key);
        var row := RowFor(l, r, time.value);
        var m := Frames(l, kind, p, parse);
        if key in m {
          GroupFrameAppend(l, kind, g, r, time.value);
        } else {
          assert g == [];
          assert Group(rs, parse, key) == [(r, time.value)];
          GroupFrameSingle(l, r, time.value);
        }
      }
    }
  }

  /** The keys of the records whose time parses. */
  ghost function ParsedKeys(rs: seq<Record>, parse: string -> Option<int>): set<string> {
    set i | 0 <= i < |rs| && parse(rs[i].timestamp).Some? :: GetKey(rs[i])
  }

  /**
   * Each frame map has exactly one frame per distinct key of the records
   * whose time parses, so the graph and table maps have the same keys.
   */
  lemma FrameKeys(l: Layout, kind: Kind, rs: seq<Record>, parse: string -> Option<int>)
    requires AllOfKind(rs, kind)
    ensures Frames(l, kind, rs, parse).Keys == ParsedKeys(rs, parse)
  {
    forall key ensures key in Frames(l, kind, rs, parse) <==> key in ParsedKeys(rs, parse) {
      FramesAreGroups(l, kind, rs, parse, key);
      GroupNonEmpty(rs, parse, key);
    }
  }

  /** The row of one more member goes below the rows of a group's frame. */
  lemma GroupFrameAppend(l: Layout, kind: Kind, g: seq<(Record, int)>, r: Record, time: int)
    requires g != [] && forall i | 0 <= i < |g| :: KindOf(g[i].0) == kind
    requires KindOf(r) == kind
    ensures && RowFits(GroupFrame(l, kind, g), RowFor(l, r, time))
      && AppendRow(GroupFrame(l, kind, g), RowFor(l, r, time)) == GroupFrame(l, kind, g + [(r, time)])
  {
    var f := FrameFor(l, g[0].0);
    var row := RowFor(l, r, time);
    FrameForLayout(l, g[0].0);
    RowsFit(l, kind, g, f);
    assert FieldTypes(GroupFrame(l, kind, g)) == FieldTypes(f);
    RowForFits(l, r, time, GroupFrame(l, kind, g));
    AppendRowIsWithRows(f, Rows(l, g), row);
    assert Rows(l, g + [(r, time)]) == Rows(l, g) + [row];
    assert (g + [(r, time)])[0] == g[0];
  }

  /** The frame of a new key holds the row of the record that created it. */
  lemma GroupFrameSingle(l: Layout, r: Record, time: int)
    ensures && RowFits(FrameFor(l, r), RowFor(l, r, time))
      && AppendRow(FrameFor(l, r), RowFor(l, r, time)) == GroupFrame(l, KindOf(r), [(r, time)])
  {
    var f := FrameFor(l, r);
    var row := RowFor(l, r, time);
    FrameForLayout(l, r);
    WithNoRows(f);
    RowForFits(l, r, time, f);
    AppendRowIsWithRows(f, [], row);
    assert [] + [row] == [row];
    assert Rows(l, [(r, time)]) == [row];
  }

  /** A frame built for a group is well formed and has one row per member of the group. */
  lemma GroupFrameRows(l: Layout, kind: Kind, g: seq<(Record, int)>)
    requires g != [] && forall i | 0 <= i < |g| :: KindOf(g[i].0) == kind
    ensures WellFormed(GroupFrame(l, kind, g))
    ensures RowCount(GroupFrame(l, kind, g)) == |g|
  {
    var f := FrameFor(l, g[0].0);
    FrameForLayout(l, g[0].0);
    RowsFit(l, kind, g, f);
    var r := GroupFrame(l, kind, g);
    var rows := Rows(l, g);
    forall j, k | 0 <= j < |r.fields| && 0 <= k < |r.fields[j].values|
      ensures TypeOf(r.fields[j].values[k]) == r.fields[j].fieldType
    {
      assert r.fields[j].values[k] == rows[k][j];
      RowForFits(l, g[k].0, g[k].1, f);
    }
  }

  /** One more record with a parseable time: the frame of its key, old or new, gets its row. */
  lemma FramesAddRecord(l: Layout, kind: Kind, rs: seq<Record>, i: nat, parse: string -> Option<int>, time: int)
    requires AllOfKind(rs, kind) && i < |rs| && parse(rs[i].timestamp) == Some(time)
    ensures var m := Frames(l, kind, rs[..i], parse);
      var key := GetKey(rs[i]);
      var f := if key in m then m[key] else FrameFor(l, rs[i]);
      && RowFits(f, RowFor(l, rs[i], time))
      && Frames(l, kind, rs[..i + 1], parse) == m[key := AppendRow(f, RowFor(l, rs[i], time))]
  {
    assert rs[..i + 1][..i] == rs[..i];
    var m := Frames(l, kind, rs[..i], parse);
    var key := GetKey(rs[i]);
    var f := if key in m then m[key] else FrameFor(l, rs[i]);
    FrameForLayout(l, rs[i]);
    RowForFits(l, rs[i], time, f);
  }

  /**
   * One pass of a handler's loop over the fetched records: both frame maps
   * are filled, skipping records whose time does not parse.
   */
  method BuildFrameMaps(rs: seq<Record>, kind: Kind, parse: string -> Option<int>)
    returns (graphFrameMap: map<string, Frame>, tableFrameMap: map<string, Frame>)
    requires AllOfKind(rs, kind)
    ensures graphFrameMap == Frames(GraphLayout, kind, rs, parse)
    ensures tableFrameMap == Frames(TableLayout, kind, rs, parse)
  {
    graphFrameMap := map[];
    tableFrameMap := map[];
    for i := 0 to |rs|
      invariant graphFrameMap == Frames(GraphLayout, kind, rs[..i], parse)
      invariant tableFrameMap == Frames(TableLayout, kind, rs[..i], parse)
    {
      var r := rs[i];
      var timestamp := parse(r.timestamp);
      if timestamp.None? {
        assert rs[..i + 1][..i] == rs[..i];
        continue;
      }
      var key := GetKey(r);
      FramesAddRecord(GraphLayout, kind, rs, i, parse, timestamp.value);
      FramesAddRecord(TableLayout, kind, rs, i, parse, timestamp.value);

      var frameToAppendTo := if key in graphFrameMap then graphFrameMap[key] else FrameFor(GraphLayout, r);
      graphFrameMap := graphFrameMap[key := AppendRow(frameToAppendTo, RowFor(GraphLayout, r, timestamp.value))];

      frameToAppendTo := if key in tableFrameMap then tableFrameMap[key] else FrameFor(TableLayout, r);
      tableFrameMap := tableFrameMap[key := AppendRow(frameToAppendTo, RowFor(TableLayout, r, timestamp.value))];
    }
    assert rs[..|rs|] == rs;
  }

  /** The frame of a key of the records whose time parses. */
  function KeyFrame(l: Layout, kind: Kind, rs: seq<Record>, parse: string -> Option<int>, key: string): Frame
    requires AllOfKind(rs, kind) && Group(rs, parse, key) != []
  {
    GroupOfKind(rs, parse, key, kind);
    GroupFrame(l, kind, Group(rs, parse, key))
  }

  /** The meta of every frame of a layout. */
  function LayoutMeta(l: Layout): FrameMeta {
    match l
    case GraphLayout => FrameMeta(TimeSeriesMulti, None)
    case TableLayout => FrameMeta(TimeSeriesWide, Some(Table))
  }

  /** The frames of a map in the given key order. */
  function InOrder(m: map<string, Frame>, order: seq<string>): (fs: seq<Frame>)
    requires forall i | 0 <= i < |order| :: order[i] in m
    ensures |fs| == |order|
    ensures forall i | 0 <= i < |order| :: fs[i] == m[order[i]]
  {
    seq(|order|, i requires 0 <= i < |order| => m[order[i]])
  }

  /** An order listing every key of a map exactly once. */
  ghost predicate EnumeratesKeys(order: seq<string>, m: map<string, Frame>) {
    && (forall i, j | 0 <= i < j < |order| :: order[i] != order[j])
    && (forall i | 0 <= i < |order| :: order[i] in m)
    && (forall k | k in m :: k in order)
    && |order| == |m|
  }

  /**
   * A frame map listed in an order that enumerates its keys: one frame per
   * distinct key of the records whose time parses, each the frame built
   * for its key's group, with the layout's meta.
   */
  lemma ListedFrames(l: Layout, kind: Kind, rs: seq<Record>, parse: string -> Option<int>, order: seq<string>)
    requires AllOfKind(rs, kind) && EnumeratesKeys(order, Frames(l, kind, rs, parse))
    ensures |order| == |ParsedKeys(rs, parse)|
    ensures forall i | 0 <= i < |order| :: order[i] in ParsedKeys(rs, parse) && Group(rs, parse, order[i]) != []
    ensures forall i | 0 <= i < |order| ::
      InOrder(Frames(l, kind, rs, parse), order)[i] == KeyFrame(l, kind, rs, parse, order[i])
      && InOrder(Frames(l, kind, rs, parse), order)[i].meta == LayoutMeta(l)
  {
    var m := Frames(l, kind, rs, parse);
    FrameKeys(l, kind, rs, parse);
    assert |m| == |m.Keys|;
    forall i | 0 <= i < |order|
      ensures Group(rs, parse, order[i]) != []
      ensures m[order[i]] == KeyFrame(l, kind, rs, parse, order[i])
      ensures m[order[i]].meta == LayoutMeta(l)
    {
      FramesAreGroups(l, kind, rs, parse, order[i]);
    }
  }

  /**
   * `for _, frame := range m { frames = append(frames, frame) }`: every
   * frame of the map exactly once, in an order the model leaves open; the
   * order taken is returned for the contract.
   */
  method AppendFramesOf(frames: seq<Frame>, m: map<string, Frame>)
    returns (result: seq<Frame>, ghost order: seq<string>)
    ensures EnumeratesKeys(order, m)
    ensures result == frames + InOrder(m, order)
  {
    result := frames;
    order := [];
    var remaining := m.Keys;
    while remaining != {}
      invariant remaining <= m.Keys
      invariant forall i | 0 <= i < |order| :: order[i] in m && order[i] !in remaining
      invariant forall i, j | 0 <= i < j < |order| :: order[i] != order[j]
      invariant forall k | k in m && k !in remaining :: k in order
      invariant |order| + |remaining| == |m.Keys|
      invariant result == frames + InOrder(m, order)
      decreases |remaining|
    {
      var key :| key in remaining;
      result := result + [m[key]];
      order := order + [key];
      remaining := remaining - {key};
    }
  }

  /**
   * The frames a handler returns: all graph frames, then, unless the
   * query comes from alerting, all table frames.
   */
  method CollectFrames(graphFrameMap: map<string, Frame>, tableFrameMap: map<string, Frame>, fromAlerting: bool)
    returns (frames: seq<Frame>, ghost graphOrder: seq<string>, ghost tableOrder: seq<string>)
    ensures EnumeratesKeys(graphOrder, graphFrameMap)
    ensures fromAlerting ==> tableOrder == []
    ensures !fromAlerting ==> EnumeratesKeys(tableOrder, tableFrameMap)
    ensures frames == InOrder(graphFrameMap, graphOrder) + InOrder(tableFrameMap, tableOrder)
  {
    frames, graphOrder := AppendFramesOf([], graphFrameMap);
    tableOrder := [];
    if !fromAlerting {
      frames, tableOrder := AppendFramesOf(frames, tableFrameMap);
    } else {
      assert InOrder(tableFrameMap, []) == [];
    }
  }

  /** The value mappings the status handler puts on every non-time column. */
  const StatusMappings: FieldConfig := FieldConfig([
    map["0" := ValueMappingResult("(0) up", "green")],
    map["1" := ValueMappingResult("(1) degraded", "yellow")],
    map["2" := ValueMappingResult("(2) error", "red")]
  ])

  /** A frame whose every field after the first has the status mappings. */
  function WithStatusMappings(f: Frame): (r: Frame)
    ensures r.meta == f.meta && |r.fields| == |f.fields|
    ensures |f.fields| > 0 ==> r.fields[0] == f.fields[0]
    ensures forall j | 1 <= j < |f.fields| :: r.fields[j] == f.fields[j].(config := Some(StatusMappings))
  {
    Frame(seq(|f.fields|, j requires 0 <= j < |f.fields| =>
                if j == 0 then f.fields[j] else f.fields[j].(config := Some(StatusMappings))), f.meta)
  }

  /**
   * The status handler's nested loop over frames and fields: SetConfig with
   * the 0/1/2 mappings on every field but the first of each frame.
   */
  method SetStatusMappings(frames: seq<Frame>) returns (result: seq<Frame>)
    ensures |result| == |frames|
    ensures forall i | 0 <= i < |frames| :: result[i] == WithStatusMappings(frames[i])
  {
    result := [];
    for i := 0 to |frames|
      invariant |result| == i
      invariant forall n | 0 <= n < i :: result[n] == WithStatusMappings(frames[n])
    {
      var frame := frames[i];
      var fields: seq<Field> := [];
      for idx := 0 to |frame.fields|
        invariant |fields| == idx
        invariant idx > 0 ==> fields[0] == frame.fields[0]
        invariant forall j | 1 <= j < idx :: fields[j] == frame.fields[j].(config := Some(StatusMappings))
      {
        if idx == 0 {
          fields := fields + [frame.fields[idx]];
          continue;
        }
        fields := fields + [frame.fields[idx].(config := Some(StatusMappings))];
      }
      result := result + [Frame(fields, frame.meta)];
    }
  }

  /**
   * Setting the mappings changes only display configuration: every frame
   * keeps its meta, its columns, their names, labels, types and values,
   * and a well-formed frame stays well formed.
   */
  lemma StatusMappingsKeepData(f: Frame)
    ensures var r := WithStatusMappings(f);
      && FieldTypes(r) == FieldTypes(f) && RowCount(r) == RowCount(f)
      && (forall j | 0 <= j < |f.fields| ::
            r.fields[j].values == f.fields[j].values && r.fields[j].name == f.fields[j].name
            && r.fields[j].labels == f.fields[j].labels)
      && (WellFormed(f) ==> WellFormed(r))
  {
  }

  /** Setting the mappings twice is the same as setting them once. */
  lemma StatusMappingsIdempotent(f: Frame)
    ensures WithStatusMappings(WithStatusMappings(f)) == WithStatusMappings(f)
  {
  }
}
