/**
 * The parts of the Grafana plugin SDK (data.Frame, data.Field and
 * backend.DataResponse) that the plugin builds, reduced to values.
 */
module Grafana {
  import opened Wrappers
  import opened GoRuntime

  /** A float32 measurement, carried as its bit pattern: no arithmetic is done on it. */
  datatype Float32 = Float32(bits: bv32)

  /** The element type of a field's backing slice. */
  datatype FieldType = TimeField | Int64Field | Float32Field | Int8Field | StringField

  /** One cell of a frame; a time is an instant in nanoseconds. */
  datatype Value =
    | TimeValue(t: int)
    | Int64Value(i: Int64)
    | Float32Value(f: Float32)
    | Int8Value(b: Int8)
    | StringValue(s: string)

  function TypeOf(v: Value): FieldType {
    match v
    case TimeValue(_) => TimeField
    case Int64Value(_) => Int64Field
    case Float32Value(_) => Float32Field
    case Int8Value(_) => Int8Field
    case StringValue(_) => StringField
  }

  /** data.ValueMappingResult: how one value is displayed. */
  datatype ValueMappingResult = ValueMappingResult(text: string, color: string)

  /** data.FieldConfig with its Mappings, each a data.ValueMapper (value text to display). */
  datatype FieldConfig = FieldConfig(mappings: seq<map<string, ValueMappingResult>>)

  /** data.Field: a named, typed column with optional labels and display config. */
  datatype Field = Field(
    name: string,
    labels: Option<map<string, string>>,
    fieldType: FieldType,
    values: seq<Value>,
    config: Option<FieldConfig>)

  datatype FrameType = TimeSeriesMulti | TimeSeriesWide
  datatype VisType = Graph | Table

  /** data.FrameMeta: the frame's type and, when set, its preferred visualisation. */
  datatype FrameMeta = FrameMeta(frameType: FrameType, preferredVisualization: Option<VisType>)

  /** data.Frame: a sequence of equally long columns. */
  datatype Frame = Frame(fields: seq<Field>, meta: FrameMeta)

  /** data.NewField over an empty slice of the given type. */
  function NewField(name: string, labels: Option<map<string, string>>, fieldType: FieldType): Field {
    Field(name, labels, fieldType, [], None)
  }

  /** Every column holds values of its own type, and all columns have the same length. */
  ghost predicate WellFormed(f: Frame) {
    && |f.fields| > 0
    && (forall j | 0 <= j < |f.fields| :: |f.fields[j].values| == |f.fields[0].values|)
    && (forall j, k | 0 <= j < |f.fields| && 0 <= k < |f.fields[j].values| ::
          TypeOf(f.fields[j].values[k]) == f.fields[j].fieldType)
  }

  /** The number of rows of a frame. */
  function RowCount(f: Frame): nat {
    if |f.fields| == 0 then 0 else |f.fields[0].values|
  }

  /** A row AppendRow accepts: one value per field, each of that field's type. */
  predicate RowFits(f: Frame, vals: seq<Value>) {
    && |vals| == |f.fields|
    && forall j | 0 <= j < |vals| :: TypeOf(vals[j]) == f.fields[j].fieldType
  }

  /**
   * data.Frame.AppendRow: appends vals[j] to the j-th field. The SDK panics
   * on a row that does not fit; here that is excluded by the precondition.
   */
  function AppendRow(f: Frame, vals: seq<Value>): (r: Frame)
    requires RowFits(f, vals)
    ensures r.meta == f.meta && |r.fields| == |f.fields|
    ensures forall j | 0 <= j < |f.fields| ::
      r.fields[j] == f.fields[j].(values := f.fields[j].values + [vals[j]])
  {
    Frame(seq(|f.fields|, j requires 0 <= j < |f.fields| =>
                f.fields[j].(values := f.fields[j].values + [vals[j]])), f.meta)
  }

  /** Appending a fitting row keeps a frame well formed and adds exactly one row. */
  lemma AppendRowWellFormed(f: Frame, vals: seq<Value>)
    requires WellFormed(f) && RowFits(f, vals)
    ensures WellFormed(AppendRow(f, vals))
    ensures RowCount(AppendRow(f, vals)) == RowCount(f) + 1
  {
    var r := AppendRow(f, vals);
    forall j, k | 0 <= j < |r.fields| && 0 <= k < |r.fields[j].values|
      ensures TypeOf(r.fields[j].values[k]) == r.fields[j].fieldType
    {
      if k < |f.fields[j].values| {
        assert r.fields[j].values[k] == f.fields[j].values[k];
      }
    }
  }

  /** backend.TimeRange: the instants of a query's range, in nanoseconds. */
  datatype TimeRange = TimeRange(from: int, to: int)

  /** backend.TimeRange.Duration: To.Sub(From). */
  function RangeDuration(tr: TimeRange): Duration {
    Sub(tr.to, tr.from)
  }

  /** backend.Status values the plugin reports. */
  datatype Status = StatusBadRequest | StatusTimeout | StatusBadGateway | StatusValidationFailed | StatusInternal

  datatype ResponseError = ResponseError(status: Status, message: string)

  /** backend.DataResponse: frames, or an error with its status. */
  datatype DataResponse = DataResponse(frames: seq<Frame>, error: Option<ResponseError>)

  /** backend.DataResponse{}. */
  const EmptyResponse: DataResponse := DataResponse([], None)

  /** backend.ErrDataResponse(status, message). */
  function ErrDataResponse(status: Status, message: string): DataResponse {
    DataResponse([], Some(ResponseError(status, message)))
  }
}
