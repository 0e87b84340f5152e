/** The resource-level markers of metric/markers.go and their
    `ApplyToResource` methods, which update a Resource in place. */
module ResourceMarkers {
  import opened Outcomes
  import opened JsonPath
  import opened CustomResourceState

  /** `+Metrics:labelFromPath:name=<string>,JSONPath=<string>`. */
  datatype LabelFromPathMarker = LabelFromPathMarker(name: string, jsonPath: string)

  /** The markers that implement `ResourceMarker`: `+Metrics:namePrefix` and `+Metrics:labelFromPath`. */
  datatype ResourceMarker = NamePrefix(prefix: string) | LabelFromPath(marker: LabelFromPathMarker)

  datatype ResourceError =
    | ParseFailed(cause: ParseError)   // the marker's JSONPath did not parse
    | DuplicateLabel(name: string)     // "duplicate definition for label %q"

  /** The label map after adding the marker's label, or the error the
      marker reports. A label may be defined again only with the same path. */
  function InsertLabel(labels: map<string, seq<string>>, m: LabelFromPathMarker, lib: Library)
    : (r: Result<map<string, seq<string>>, ResourceError>)
    ensures Parse(lib, m.jsonPath).Err? ==> r == Err(ParseFailed(Parse(lib, m.jsonPath).error))
    ensures r.Ok? <==> Parse(lib, m.jsonPath).Ok? &&
                       (m.name !in labels || labels[m.name] == Parse(lib, m.jsonPath).value)
    ensures Parse(lib, m.jsonPath).Ok? && !r.Ok? ==> r == Err(DuplicateLabel(m.name))
    ensures r.Ok? ==> r.value.Keys == labels.Keys + {m.name} &&
                      r.value[m.name] == Parse(lib, m.jsonPath).value &&
                      forall k :: k in labels && k != m.name ==> r.value[k] == labels[k]
    ensures r.Ok? && m.name in labels ==> r.value == labels
  {
    match Parse(lib, m.jsonPath)
    case Err(e) => Err(ParseFailed(e))
    case Ok(path) =>
      if m.name in labels && labels[m.name] != path then Err(DuplicateLabel(m.name))
      else Ok(labels[m.name := path])
  }

  /** Applying the same label marker twice has the effect of applying it once. */
  lemma InsertLabelIdempotent(labels: map<string, seq<string>>, m: LabelFromPathMarker, lib: Library)
    requires InsertLabel(labels, m, lib).Ok?
    ensures InsertLabel(InsertLabel(labels, m, lib).value, m, lib) == InsertLabel(labels, m, lib)
  {
  }

  /** Two markers for one label, applied in either order: the second one
      fails exactly when the two paths differ. */
  lemma SecondDefinitionFailsIffPathsDiffer(
    labels: map<string, seq<string>>, m1: LabelFromPathMarker, m2: LabelFromPathMarker, lib: Library)
    requires m1.name == m2.name && m1.name !in labels
    requires Parse(lib, m1.jsonPath).Ok? && Parse(lib, m2.jsonPath).Ok?
    ensures InsertLabel(labels, m1, lib).Ok? && InsertLabel(labels, m2, lib).Ok?
    ensures InsertLabel(InsertLabel(labels, m1, lib).value, m2, lib).Err? <==>
            Parse(lib, m1.jsonPath).value != Parse(lib, m2.jsonPath).value
    ensures InsertLabel(InsertLabel(labels, m2, lib).value, m1, lib).Err? <==>
            Parse(lib, m1.jsonPath).value != Parse(lib, m2.jsonPath).value
  {
  }

  /** The effect of one resource marker on a resource, and the error it reports.
      A label marker creates the label map if it was nil, even when it fails. */
  function ApplyMarker(v: ResourceValue, rm: ResourceMarker, lib: Library)
    : (r: (ResourceValue, Option<ResourceError>))
    ensures r.0.gvk == v.gvk && r.0.metrics == v.metrics
    ensures rm.NamePrefix? ==> r.1 == None && r.0.metricNamePrefix == Some(rm.prefix) && r.0.labelsFromPath == v.labelsFromPath
    ensures rm.LabelFromPath? ==> r.0.metricNamePrefix == v.metricNamePrefix && r.0.labelsFromPath.Some?
    ensures rm.LabelFromPath? ==>
      var labels := if v.labelsFromPath.Some? then v.labelsFromPath.value else map[];
      && (r.1.None? <==> InsertLabel(labels, rm.marker, lib).Ok?)
      && (r.1.None? ==> r.0.labelsFromPath.value == InsertLabel(labels, rm.marker, lib).value)
      && (r.1.Some? ==> r.0.labelsFromPath.value == labels && r.1.value == InsertLabel(labels, rm.marker, lib).error)
  {
    match rm
    case NamePrefix(prefix) => (v.(metricNamePrefix := Some(prefix)), None)
    case LabelFromPath(m) =>
      var labels := if v.labelsFromPath.Some? then v.labelsFromPath.value else map[];
      match InsertLabel(labels, m, lib)
      case Ok(updated) => (v.(labelsFromPath := Some(updated)), None)
      case Err(e) => (v.(labelsFromPath := Some(labels)), Some(e))
  }

  /** A name prefix always succeeds and replaces any earlier prefix. */
  lemma NamePrefixOverwrites(v: ResourceValue, p1: string, p2: string, lib: Library)
    ensures ApplyMarker(v, NamePrefix(p1), lib).1 == None
    ensures ApplyMarker(ApplyMarker(v, NamePrefix(p1), lib).0, NamePrefix(p2), lib).0 ==
            ApplyMarker(v, NamePrefix(p2), lib).0
  {
  }

  /** The Resource a parser builds up, updated in place by reference. */
  class Resource {
    var gvk: GroupVersionKind
    var metricNamePrefix: Option<string>
    var labelsFromPath: Option<map<string, seq<string>>>
    var metrics: seq<Generator>

    constructor (gvk: GroupVersionKind)
      ensures Value() == ResourceValue(gvk, None, None, [])
    {
      this.gvk := gvk;
      metricNamePrefix := None;
      labelsFromPath := None;
      metrics := [];
    }

    /** The value a copy of this resource holds. */
    function Value(): ResourceValue
      reads this
    {
      ResourceValue(gvk, metricNamePrefix, labelsFromPath, metrics)
    }
  }

  /** `NamePrefixMarker.ApplyToResource`. */
  method ApplyNamePrefix(prefix: string, resource: Resource) returns (err: Option<ResourceError>)
    modifies resource
    ensures resource.Value() == old(resource.Value()).(metricNamePrefix := Some(prefix))
    ensures err == None
  {
    resource.metricNamePrefix := Some(prefix);
    err := None;
  }

  /** `LabelFromPathMarker.ApplyToResource`, comparing an existing path element by element. */
  method ApplyLabelFromPath(m: LabelFromPathMarker, lib: Library, resource: Resource)
    returns (err: Option<ResourceError>)
    modifies resource
    ensures (resource.Value(), err) == ApplyMarker(old(resource.Value()), LabelFromPath(m), lib)
  {
    if resource.labelsFromPath.None? {
      resource.labelsFromPath := Some(map[]);
    }
    var labels := resource.labelsFromPath.value;
    var parsed := Parse(lib, m.jsonPath);
    if parsed.Err? {
      return Some(ParseFailed(parsed.error));
    }
    var elems := parsed.value;
    if m.name in labels {
      var existing := labels[m.name];
      if |elems| != |existing| {
        return Some(DuplicateLabel(m.name));
      }
      var i := 0;
      while i < |existing|
        invariant 0 <= i <= |existing|
        invariant forall k :: 0 <= k < i ==> existing[k] == elems[k]
      {
        if existing[i] != elems[i] {
          return Some(DuplicateLabel(m.name));
        }
        i := i + 1;
      }
      assert existing == elems;
    }
    resource.labelsFromPath := Some(labels[m.name := elems]);
    err := None;
  }

  /** `ResourceMarker.ApplyToResource`, dispatched on the marker's kind. */
  method ApplyToResource(rm: ResourceMarker, lib: Library, resource: Resource)
    returns (err: Option<ResourceError>)
    modifies resource
    ensures (resource.Value(), err) == ApplyMarker(old(resource.Value()), rm, lib)
  {
    match rm
    case NamePrefix(prefix) => err := ApplyNamePrefix(prefix, resource);
    case LabelFromPath(m) => err := ApplyLabelFromPath(m, lib, resource);
  }
}
