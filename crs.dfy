/** The configuration values the generator emits (the `customresourcestate`
    package's Generator, Metric and Resource). */
module CustomResourceState {
  import opened Outcomes
  import opened Ordering

  /** Where a metric's value lives in a serialized object, and its label paths. */
  datatype MetricMeta = MetricMeta(path: seq<string>, labelsFromPath: map<string, seq<string>>)

  /** The tagged union `Metric`: its `Type` and the one payload that goes with it. */
  datatype Metric =
    | Gauge(meta: MetricMeta, nilIsZero: bool, labelFromKey: string, valueFrom: seq<string>)
    | StateSet(meta: MetricMeta, list: seq<string>, labelName: string, valueFrom: seq<string>)
    | Info(meta: MetricMeta, labelFromKey: string)
    | Untyped(typeName: string)   // a `Type` that is none of the three; no builder makes one

  datatype Generator = Generator(name: string, help: string, each: Metric)

  datatype GroupVersionKind = GroupVersionKind(group: string, version: string, kind: string)

  /** A Resource as stored in the parser's table and written to the document.
      `None` stands for Go's nil prefix and nil label map. */
  datatype ResourceValue = ResourceValue(
    gvk: GroupVersionKind,
    metricNamePrefix: Option<string>,
    labelsFromPath: Option<map<string, seq<string>>>,
    metrics: seq<Generator>)

  /** True for the three metric kinds the builders produce. */
  predicate Typed(g: Generator)
  {
    !g.each.Untyped?
  }

  /** Generators are sorted by name with Go's string order. */
  function NameKey(g: Generator): SortKey
  {
    SortKey(0, g.name)
  }
}
