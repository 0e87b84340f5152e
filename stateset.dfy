/** `StateSetMarker.ToGenerator` (metric/marker_stateset.go). */
module StateSetMarkers {
  import opened Outcomes
  import opened JsonPath
  import opened CustomResourceState

  /** `+Metrics:stateset`; `jsonPath` is `None` when the marker leaves it out. */
  datatype StateSetMarker = StateSetMarker(
    name: string,
    help: string,
    labelsFromPath: map<string, string>,
    jsonPath: Option<string>,
    labelName: string,
    list: seq<string>)

  /** The state set keeps the base path as its path and puts the marker's
      own path into `valueFrom`; label paths are all parsed (no `.` rule). */
  function ToGenerator(m: StateSetMarker, lib: Library, basePath: seq<string>): (r: Outcome<Generator>)
    ensures !r.Diverges?
    ensures r.Done? <==>
      && (m.jsonPath.Some? ==> Parse(lib, m.jsonPath.value).Ok?)
      && ParseLabels(lib, m.labelsFromPath, false).Done?
    ensures r.Done? ==> r.value.name == m.name && r.value.help == m.help && r.value.each.StateSet?
    ensures r.Done? ==>
      var s := r.value.each;
      && s.meta.path == basePath
      && s.list == m.list
      && s.labelName == m.labelName
      && s.valueFrom == (if m.jsonPath.None? then [] else Parse(lib, m.jsonPath.value).value)
      && s.meta.labelsFromPath.Keys == m.labelsFromPath.Keys
      && forall k :: k in m.labelsFromPath ==> s.meta.labelsFromPath[k] == Parse(lib, m.labelsFromPath[k]).value
  {
    var valueFrom :=
      if m.jsonPath.None? then Ok([]) else Parse(lib, m.jsonPath.value);
    if valueFrom.Err? then Fatal
    else
      var labels :- ParseLabels(lib, m.labelsFromPath, false);
      Done(Generator(m.name, m.help,
        StateSet(MetricMeta(basePath, labels), m.list, m.labelName, valueFrom.value)))
  }
}
