/** `InfoMarker.ToGenerator` (metric/marker_info.go). */
module InfoMarkers {
  import opened Outcomes
  import opened JsonPath
  import opened CustomResourceState

  /** `+Metrics:info`; an empty `jsonPath` means the marker left it out. */
  datatype InfoMarker = InfoMarker(
    name: string,
    help: string,
    labelsFromPath: map<string, string>,
    jsonPath: string,
    labelFromKey: string)

  /** The info's path is the base path, extended by the marker's own path
      only when that is not empty; a label path `.` is the empty path. */
  function ToGenerator(m: InfoMarker, lib: Library, basePath: seq<string>): (r: Outcome<Generator>)
    ensures !r.Diverges?
    ensures r.Done? <==>
      && (m.jsonPath != "" ==> Parse(lib, m.jsonPath).Ok?)
      && ParseLabels(lib, m.labelsFromPath, true).Done?
    ensures r.Done? ==> r.value.name == m.name && r.value.help == m.help && r.value.each.Info?
    ensures r.Done? ==>
      var i := r.value.each;
      && i.labelFromKey == m.labelFromKey
      && basePath <= i.meta.path
      && i.meta.path[|basePath|..] == (if m.jsonPath == "" then [] else Parse(lib, m.jsonPath).value)
      && i.meta.labelsFromPath.Keys == m.labelsFromPath.Keys
      && forall k :: k in m.labelsFromPath ==>
           i.meta.labelsFromPath[k] == if m.labelsFromPath[k] == "." then [] else Parse(lib, m.labelsFromPath[k]).value
  {
    var extra :=
      if m.jsonPath == "" then Ok([]) else Parse(lib, m.jsonPath);
    if extra.Err? then Fatal
    else
      var path := if |extra.value| > 0 then basePath + extra.value else basePath;
      assert path[|basePath|..] == extra.value;
      var labels :- ParseLabels(lib, m.labelsFromPath, true);
      Done(Generator(m.name, m.help, Info(MetricMeta(path, labels), m.labelFromKey)))
  }
}
