/**
 * The plugin's query and option types: the JSON payloads of a data query
 * (already decoded) and the select options served to the query editor.
 */
module PluginTypes {
  import opened Wrappers

  /** queryModel: the only field every query carries. */
  datatype QueryModel = QueryModel(queryType: string)

  /**
   * monitorTelemetryQuery, shared by the three query kinds. The check and
   * instance filters are optional (a JSON null or a missing key is None).
   */
  datatype TelemetryQuery = TelemetryQuery(
    monitors: seq<string>,
    checks: Option<seq<string>>,
    instances: Option<seq<string>>,
    includeShared: bool,
    fromAlerting: bool)

  /** selectOption: one entry of a select box in the query editor (Label, Value). */
  datatype SelectOption = SelectOption(labelText: string, value: string)
}
