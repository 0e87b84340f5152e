/** `GaugeMarker.ToGenerator` (metric/marker_gauge.go). */
module GaugeMarkers {
  import opened Outcomes
  import opened JsonPath
  import opened CustomResourceState

  /** `+Metrics:gauge`; `valueFrom` is `None` when the marker leaves it out. */
  datatype GaugeMarker = GaugeMarker(
    name: string,
    help: string,
    jsonPath: string,
    labelFromKey: string,
    labelsFromPath: map<string, string>,
    nilIsZero: bool,
    valueFrom: Option<string>)

  /** The gauge's path is the base path followed by the marker's own path;
      a label path `.` is the empty path; every parse failure is fatal. */
  function ToGenerator(m: GaugeMarker, lib: Library, basePath: seq<string>): (r: Outcome<Generator>)
    ensures !r.Diverges?
    ensures r.Done? <==>
      && Parse(lib, m.jsonPath).Ok?
      && (m.valueFrom.Some? ==> Parse(lib, m.valueFrom.value).Ok?)
      && ParseLabels(lib, m.labelsFromPath, true).Done?
    ensures r.Done? ==> r.value.name == m.name && r.value.help == m.help && r.value.each.Gauge?
    ensures r.Done? ==>
      var g := r.value.each;
      && g.nilIsZero == m.nilIsZero
      && g.labelFromKey == m.labelFromKey
      && basePath <= g.meta.path
      && g.meta.path[|basePath|..] == Parse(lib, m.jsonPath).value
      && g.valueFrom == (if m.valueFrom.None? then [] else Parse(lib, m.valueFrom.value).value)
      && g.meta.labelsFromPath.Keys == m.labelsFromPath.Keys
      && forall k :: k in m.labelsFromPath ==>
           g.meta.labelsFromPath[k] == if m.labelsFromPath[k] == "." then [] else Parse(lib, m.labelsFromPath[k]).value
  {
    match Parse(lib, m.jsonPath)
    case Err(_) => Fatal
    case Ok(additionalPath) =>
      var valueFrom :=
        if m.valueFrom.None? then Ok([]) else Parse(lib, m.valueFrom.value);
      if valueFrom.Err? then Fatal
      else
        var labels :- ParseLabels(lib, m.labelsFromPath, true);
        var path := basePath + additionalPath;
        assert path[|basePath|..] == additionalPath;
        Done(Generator(m.name, m.help,
          Gauge(MetricMeta(path, labels), m.nilIsZero, m.labelFromKey, valueFrom.value)))
  }
}
