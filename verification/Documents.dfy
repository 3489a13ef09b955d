/** Which fields a run document may have. */
module Documents {
  import opened Basics
  import opened TomlValue

  /** The tag, which defaults to an integration run. */
  function Kind(value: Toml): Option<string> {
    match Entry(value, "kind")
    case None => Some("integration")
    case Some(Text(kind)) => Some(kind)
    case Some(_) => None
  }

  function Fields(kind: string): Option<set<string>> {
    if kind == "integration" then
      Some({"target", "evaluator", "evaluator_requirements", "sampler_requirements", "evaluator_runner_params",
            "sampler_aggregator_runner_params", "task_queue"})
    else if kind == "integration_campaign" then Some({"target", "children", "measurement", "stop_condition", "allocation"})
    else if kind == "parameter_scan" then Some({"child", "parameters", "measurement", "max_concurrent_runs"})
    else if kind == "hyperparameter_tuning" then
      Some({"child", "parameters", "objective", "optimizer", "max_concurrent_trials"})
    else None
  }

  const COMMON_FIELDS := {"kind", "name", "replacements", "gammaboard"}

  /** The field that selects results, and what it may say. */
  function Selection(kind: string): Option<(string, set<string>)> {
    if kind == "integration_campaign" then Some(("measurement", {"selection"}))
    else if kind == "parameter_scan" then Some(("measurement", {"source_task", "selection"}))
    else if kind == "hyperparameter_tuning" then Some(("objective", {"source_task", "selection", "mode"}))
    else None
  }

  predicate ValidTask(task: Toml) {
    match Entry(task, "kind")
    case Some(Text(kind)) => kind !in {"integration_campaign", "parameter_scan", "hyperparameter_tuning"}
    case _ => true
  }

  predicate ValidFields(value: Toml, kind: string)
    requires value.Table?
  {
    var fields := Fields(kind);
    fields.Some? && forall key :: key in value.entries ==> key in COMMON_FIELDS || key in fields.value
  }

  predicate ValidSelection(value: Toml, kind: string) {
    var selection := Selection(kind);
    selection.Some? ==>
      match Entry(value, selection.value.0)
      case Some(Table(entries)) => forall key :: key in entries ==> key in selection.value.1
      case _ => true
  }

  predicate ValidTasks(value: Toml) {
    match Entry(value, "task_queue")
    case Some(Array(tasks)) => forall i :: 0 <= i < |tasks| ==> ValidTask(tasks[i])
    case _ => true
  }

  predicate ValidDocument(value: Toml) {
    value.Table? && Kind(value).Some? &&
    ValidFields(value, Kind(value).value) && ValidSelection(value, Kind(value).value) && ValidTasks(value)
  }
}
