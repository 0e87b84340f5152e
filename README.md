# metric-gen configuration assembly, in Dafny

This project models the engine of kube-state-metrics' experimental
`metric-gen` tool. The tool reads Go API types annotated with `+Metrics:`
markers and writes a `CustomResourceStateMetrics` configuration. The model
covers how it does that:

- **Metric builders** (`marker_gauge.go`, `marker_stateset.go`,
  `marker_info.go`). Each one turns a gauge, state-set or info marker into a
  metric generator under a base path.
- **JSONPath post-processing** (`JSONPath.Parse` in `markers.go`). This turns
  the library's parse tree into path segments.
- **The two resource-level markers** (`markers.go`). The name-prefix marker
  and the label-from-path marker update a Resource in place.
- **The parser** (`generator/parser.go`).
  - It walks a type's markers and fields, recursing through field types and
    putting each field's JSON name in front of the nested generators' paths.
  - It builds one Resource per GroupKind: a first pass over the marked
    packages of the group sets the metrics and the version, and a second pass
    applies every resource marker and records its errors.
- **Document assembly** (`metric/generator.go`). It requests a resource for
  every kube kind of every root that imports meta/v1, keeps the resources
  that have metrics, sorts their metrics and the resources, and stamps the
  `kind` key.

The type checker, the per-package imports and the JSONPath library are
oracles held in a `Universe` value. The package loader hands over each root
as a `Package`, and the parser indexes it (`NeedPackage`) just before that
root's kinds are requested, so each request sees the packages of the roots
processed so far. `klog.Fatal` and Go
panics are the `Fatal` outcome. Recursion that the source leaves unbounded
(nothing ever fills `FlattenedMetrics`) is cut by a `fuel` argument, whose
exhaustion is the `Diverges` outcome.

Each file keeps the form of its source:

- **Pure, as functions:** the marker builders, the type dispatch
  (`generatorsFor`, `localNamedToGenerators`, `requestGenerator`) and
  `JSONPath.Parse`.
- **Imperative, as methods:** `ApplyToResource` on a `Resource` class,
  `NeedResourceFor` and `NeedMetricsGeneratorFor` on a `Parser` class, the
  loops of `generatorsFromMarkers` and `Generate`, and
  `addCustomResourceStateKind` on a `YamlObject` class.
- **Specified by functions:** every method is proved against a function of
  its inputs and old state (`TypeGenerators`, `Load`, `BuildResource`,
  `ProcessRoots`, `ApplyMarker`). Lemmas prove the source's properties about
  those functions. The walk's output order is checked against `Sequence`, a
  separate statement of "run the steps in order; return the first failure,
  else all their generators concatenated".

Files:

- `outcomes.dfy`: `Option`, `Result`, and `Outcome` (`Done`, `Fatal`, `Diverges`).
- `ordering.dfy`: Go's string order, sort keys, and a sort that returns a sorted permutation.
- `jsonpath.dfy`: the parse tree and `JSONPath.Parse`.
- `crs.dfy`: the emitted configuration values (Generator, Metric, Resource).
- `gauge.dfy`, `stateset.dfy`, `info.dfy`: the three marker builders.
- `resource_markers.dfy`: the resource markers and the `Resource` class.
- `parser.dfy`: the walk and the `Parser` class.
- `generate.dfy`: `Generate`, the resource comparator and the kind stamp.

## Model

| member | source | states |
|---|---|---|
| `Ordering.SortBy` | exp/metric-gen/generator/parser.go:85-87 | The result of the sort is ordered by the key (no element greater than a later one) and is a permutation (same multiset) of the input. |
| `JsonPath.FieldValues` | exp/metric-gen/metric/markers.go:111-117 | The list's elements give values exactly when every element is a field node. Otherwise the error is the field-node typecast failure. The values are the nodes' values, one per node, in order. |
| `JsonPath.FromTree` | exp/metric-gen/metric/markers.go:93-123 | A library error is wrapped. More than one root node is "expected a single JSONPath" with the count. The result is a path exactly when the single root is a list of field nodes, and then it holds their values in order. |
| `JsonPath.Parse` | exp/metric-gen/metric/markers.go:93-123 | In terms of what the library returns for the path: a library error is wrapped, and a root that is not exactly one node is an error other than the typecast failure. The path parses exactly when the library gives a single list of field nodes, and then the result is their values, one per node, in order. |
| `JsonPath.ParseFieldChain` | exp/metric-gen/metric/markers.go:105-117 | A single list of field nodes parses to exactly their names, one segment per node. |
| `JsonPath.ParseRejectsNonList` | exp/metric-gen/metric/markers.go:118-119 | A single root node that is not a list is rejected with its node type. |
| `JsonPath.ParseLabels` | exp/metric-gen/metric/marker_gauge.go:74-85 | The label map keeps the marker's keys. With the dot rule, `.` maps to the empty path unparsed, and every other value maps to its parse. Any parse failure among the parsed values is fatal, and only then. |
| `GaugeMarkers.ToGenerator` | exp/metric-gen/metric/marker_gauge.go:61-105 | Fatal exactly when JSONPath, ValueFrom (if set) or a label path (other than `.`) fails to parse. Otherwise: name, help, NilIsZero and LabelFromKey are copied; the type is Gauge; the path is the base path followed by the parse; ValueFrom is empty when absent and its parse otherwise; labels follow the dot rule. |
| `StateSetMarkers.ToGenerator` | exp/metric-gen/metric/marker_stateset.go:60-97 | The path is exactly the base path. A set JSONPath is parsed into ValueFrom, an absent one gives an empty ValueFrom. Every label value is parsed, with no `.` rule. Name, help, List and LabelName are copied and the type is StateSet. Fatal exactly when some parse fails. |
| `InfoMarkers.ToGenerator` | exp/metric-gen/metric/marker_info.go:59-98 | The base path is a prefix of the path. An empty JSONPath leaves the path at the base path; otherwise its parse is appended. Labels follow the dot rule. Name, help and LabelFromKey are copied and the type is Info. Fatal exactly when some parse fails. |
| `ResourceMarkers.InsertLabel` | exp/metric-gen/metric/markers.go:140-157 | A parse error is returned as is. The insertion succeeds exactly when the path parses and the label is absent or has an element-wise equal path; otherwise it reports a duplicate definition. On success the keys gain the name, the name maps to the parse, every other label is unchanged, and an existing label leaves the map unchanged. |
| `ResourceMarkers.InsertLabelIdempotent` | exp/metric-gen/metric/markers.go:145-157 | Inserting the same label marker a second time succeeds and changes nothing. |
| `ResourceMarkers.SecondDefinitionFailsIffPathsDiffer` | exp/metric-gen/metric/markers.go:145-153 | For two markers with the same name, the second one fails, in either order, exactly when their parsed paths differ. |
| `ResourceMarkers.ApplyMarker` | exp/metric-gen/metric/markers.go:80-158 | GVK and metrics are never touched. A name prefix always succeeds, sets the prefix and leaves the labels alone. A label marker leaves the prefix alone and always leaves a label map (created empty if nil). It fails exactly when the insertion fails, and then the labels stay as they were. |
| `ResourceMarkers.NamePrefixOverwrites` | exp/metric-gen/metric/markers.go:80-83 | A name prefix never fails, and a later prefix replaces an earlier one. |
| `ResourceMarkers.Resource.constructor` | exp/metric-gen/generator/parser.go:63-68 | A new resource holds the given GVK, no prefix, no label map and no metrics. |
| `ResourceMarkers.ApplyNamePrefix` | exp/metric-gen/metric/markers.go:80-83 | In place: the prefix becomes the marker's string, nothing else changes, and no error is returned. |
| `ResourceMarkers.ApplyLabelFromPath` | exp/metric-gen/metric/markers.go:136-158 | In place: the element-by-element comparison loop leaves the resource and the error exactly as `ApplyMarker` specifies. |
| `ResourceMarkers.ApplyToResource` | exp/metric-gen/metric/markers.go:54-58 | Dispatch on the marker kind: the new resource and error are those of `ApplyMarker`. |
| `Parser.Split` | exp/metric-gen/generator/parser.go:183 | Splitting the tag on commas gives at least one piece and no piece contains a comma. Joining the pieces with commas gives the tag back. |
| `Parser.SkippedIffDash` | exp/metric-gen/generator/parser.go:184-187 | A tag splits into the single piece `-` exactly when it is `-`. |
| `Parser.DashCommaIsKept` | exp/metric-gen/generator/parser.go:185 | The tag `-,` splits into `-` and an empty piece, so that field is kept under the name `-`. |
| `Parser.SplitNoComma` | exp/metric-gen/generator/parser.go:183 | A tag without a comma is a single piece, the whole tag, so it is the field's name. |
| `Parser.PrependPath` | exp/metric-gen/generator/parser.go:200-211 | For Gauge, StateSet and Info the path becomes `[prefix] + old path`, and labels, payload, name and help are unchanged. Any other type is returned unchanged. |
| `Parser.GeneratorOf` | exp/metric-gen/generator/parser.go:155-158 | A gauge, state-set or info marker succeeds exactly when its own builder does, and then gives the one generator that builder makes under the base path. Any other marker gives none. It is never divergent. |
| `Parser.MarkerGenerators` | exp/metric-gen/generator/parser.go:150-164 | It never diverges. On success every generator is typed and its path starts with the base path. |
| `Parser.MarkerGeneratorsInOrder` | exp/metric-gen/generator/parser.go:150-164 | The markers' generators are `Sequence` of the per-marker results in marker order: success exactly when every metric marker's builder succeeds, and then the builders' generators concatenated in marker order; otherwise the first builder failure. |
| `Parser.MarkerGeneratorsFailureSticks` | exp/metric-gen/generator/parser.go:153-161 | Once one marker's builder fails, the whole call is fatal, whatever the later markers are. |
| `Parser.TypeGenerators` | exp/metric-gen/generator/parser.go:166-198 | A type in `FlattenedMetrics` gives nothing. A type without info is fatal. Otherwise the type-level generators come first in the result, and every generator is typed. |
| `Parser.TypeGeneratorsInOrder` | exp/metric-gen/generator/parser.go:176-197 | For a type with info, the walk is `Sequence` of the type-level marker result followed by each field's result in declaration order. So it is the type's generators and then each field's, concatenated, or else the first failure among them. |
| `Parser.FieldsGenerators` | exp/metric-gen/generator/parser.go:177-195 | On success every generator is typed. |
| `Parser.FieldsGeneratorsInOrder` | exp/metric-gen/generator/parser.go:177-195 | The fields' generators are `Sequence` of each field's result in declaration order: all fields' generators concatenated in order, or the first field's failure. |
| `Parser.FieldsFailureSticks` | exp/metric-gen/generator/parser.go:177-195 | Once a field's walk fails, the whole field loop ends with that failure, whatever the later fields are. |
| `Parser.FieldGenerators` | exp/metric-gen/generator/parser.go:178-194 | A field with no json tag, or with the tag `-`, contributes nothing. Otherwise, with `name` the first tag piece: it succeeds exactly when the field's own markers (base path `[name]`) and its type's walk both succeed. Then the result is the own generators followed by the type's generators with `name` put in front of each path. A failure of the own markers comes first, then one of the type's walk. |
| `Parser.NestedFieldPath` | exp/metric-gen/generator/parser.go:176-211 | End to end: a gauge on field `inner` of a type reached through field `outer` comes out as the only generator, with path `[outer] + its own path`, starting `[outer, inner]`. |
| `Parser.GeneratorsFor` | exp/metric-gen/generator/parser.go:213-237 | An identifier goes to `LocalNamedToGenerators`. Selectors and star expressions give exactly the result of their operand. Arrays and maps give nothing. Struct literals and any other expression are fatal. |
| `Parser.LocalNamedToGenerators` | exp/metric-gen/generator/parser.go:239-262 | Invalid and basic types give nothing. Any other unnamed type is fatal, as the failed type assertion panics. A named type gives exactly `RequestGenerator` for its name, with package path "" when it is declared in the referring package and its own path otherwise. |
| `Parser.RequestGenerator` | exp/metric-gen/generator/parser.go:139-148 | An empty package path gives the walk of the type in the referring package. Any other path gives the walk of the type in the package that path imports, and it is fatal when the path is not among the imports. |
| `Parser.TypeGeneratorsMoreFuel` | exp/metric-gen/generator/parser.go:166-198 | A walk that does not run out of fuel gives the same result with one more unit of fuel. It is proved together with the same fact for the other five walk functions. |
| `Parser.TypeGeneratorsFuelMonotone` | exp/metric-gen/generator/parser.go:166-198 | A walk that ends in a result or in a fatal error ends the same way with any larger fuel. Only `Diverges` depends on the fuel. |
| `Parser.SelfReferenceDiverges` | exp/metric-gen/generator/parser.go:166-198 | A type with a tagged field of its own type (`T` or `*T`) diverges for every fuel, because `FlattenedMetrics` is never filled. |
| `Parser.GeneratorsFromMarkers` | exp/metric-gen/generator/parser.go:150-164 | The appending loop returns exactly `MarkerGenerators` of the markers. |
| `Parser.PrependPathOnAll` | exp/metric-gen/generator/parser.go:192-194 | The loop returns each generator with the prefix put in front of its path, in order. |
| `Parser.GeneratorsOfField` | exp/metric-gen/generator/parser.go:178-194 | One iteration of the field loop returns exactly `FieldGenerators` of the field. |
| `Parser.FieldsLoop` | exp/metric-gen/generator/parser.go:177-195 | The field loop returns exactly `FieldsGenerators` of the fields, stopping at the first failure. |
| `Parser.Load` | exp/metric-gen/metric/generator.go:56-57 | A package already indexed changes nothing. A new package adds its types, overriding none but its own. Its group version is added if it declares one, and every other group version is kept. The iteration order only grows. The index stays valid: every package with a group version is visited once. |
| `Parser.Parser.constructor` | exp/metric-gen/generator/parser.go:42-48 | The oracles are stored. The package index starts empty, with the given iteration order. Both tables and the error list start empty. |
| `Parser.Parser.NeedPackage` | exp/metric-gen/metric/generator.go:56-57 | In place: the parser's index becomes `Load` of the old index and the package, and stays valid. |
| `Parser.Parser.NeedMetricsGeneratorFor` | exp/metric-gen/generator/parser.go:166-198 | Returns exactly `TypeGenerators` over the types the parser has indexed so far. |
| `Parser.Candidates` | exp/metric-gen/generator/parser.go:55-61 | A package is a candidate exactly when it is visited by the iteration order, has a group version, and that version's group is the requested group. |
| `Parser.Parser.PackagesOf` | exp/metric-gen/generator/parser.go:55-61 | The loop collects exactly the candidates, in iteration order. |
| `Parser.FirstPass` | exp/metric-gen/generator/parser.go:70-93 | After the first pass the metrics are ordered by name. |
| `Parser.FirstPassVersions` | exp/metric-gen/generator/parser.go:88-92 | Every marked package's version is empty or the final version. Of two marked packages the earlier one has an empty version, so at most one sets the version. |
| `Parser.FirstPassVersionSource` | exp/metric-gen/generator/parser.go:88-92 | A non-empty version is that of some marked package. |
| `Parser.FirstPassMetricsSource` | exp/metric-gen/generator/parser.go:83-87 | Non-empty metrics are, up to order, the generators of some marked package's type. |
| `Parser.FirstPassUnmarked` | exp/metric-gen/generator/parser.go:72-82 | Packages that lack the type or the GVK marker contribute no metrics and no version. |
| `Parser.Parser.SetMetricsAndVersion` | exp/metric-gen/generator/parser.go:70-93 | In place, the first loop fails exactly as `FirstPass` does. On success it sets only the resource's metrics and version, to those of `FirstPass`. |
| `Parser.ApplyAll` | exp/metric-gen/generator/parser.go:95-111 | Applying the resource markers never changes the GVK or the metrics. |
| `Parser.LastNamePrefixWins` | exp/metric-gen/generator/parser.go:101-109 | The final prefix is that of the last name-prefix marker, whatever errors other markers reported. |
| `Parser.ParsedLabelIsPresent` | exp/metric-gen/generator/parser.go:101-109 | A label marker whose path parses leaves its label present at the end, whatever errors were recorded before or after it. |
| `Parser.Parser.ApplyResourceMarkers` | exp/metric-gen/generator/parser.go:95-111 | In place: every resource marker of every package with the type is applied, with or without the GVK marker. Each error is appended to the parser's errors and the loop goes on, exactly as `ApplyAll` specifies. |
| `Parser.BuildResource` | exp/metric-gen/generator/parser.go:50-114 | A built resource carries the requested group and kind, and its metrics are ordered by name. |
| `Parser.BuiltVersionSource` | exp/metric-gen/generator/parser.go:63-92 | The stored version is empty or that of a marked package of the requested group. |
| `Parser.Parser.NeedResourceFor` | exp/metric-gen/generator/parser.go:50-114 | A GroupKind already stored leaves both tables untouched. Otherwise a failure is fatal or divergent exactly as `BuildResource` is. On success only that one key is written, with the built resource, and the new errors are appended. |
| `MetricGenerator.LessAsWritten` | exp/metric-gen/metric/generator.go:90-105 | The comparator as written is fatal exactly when the first resource has no prefix and the second has one. With neither prefix set it is the corrected order, which there compares the Group/Version/Kind strings. With the first prefix set it says "less" exactly when the second prefix is set and non-empty, whatever the first prefix is. |
| `MetricGenerator.AsWrittenPanics` | exp/metric-gen/metric/generator.go:99-101 | The comparator as written dereferences a nil prefix when the first resource has none and the second has one. |
| `MetricGenerator.AsWrittenNotAsymmetric` | exp/metric-gen/metric/generator.go:98-105 | With prefixes `a` and `b`, the comparator as written says each resource is less than the other. |
| `MetricGenerator.ResourceKey` | exp/metric-gen/metric/generator.go:97 | An unprefixed resource ranks first and is keyed by its Group/Version/Kind string. A prefixed one ranks second and is keyed by its prefix. |
| `MetricGenerator.ResourceLess` | exp/metric-gen/metric/generator.go:90-106 | The corrected order: an unprefixed resource comes before a prefixed one and never after it. Two unprefixed resources compare by Group/Version/Kind string, and two prefixed ones by prefix. |
| `MetricGenerator.ResourceLessIsStrictWeakOrder` | exp/metric-gen/metric/generator.go:90-106 | The corrected order is irreflexive and transitive, and incomparable resources have equal keys. |
| `MetricGenerator.ResourceLessAgrees` | exp/metric-gen/metric/generator.go:90-106 | Without prefixes the corrected order is the written GVK-string comparison. With both prefixes set it compares the prefixes. No prefix comes before a non-empty prefix. |
| `MetricGenerator.Normalized` | exp/metric-gen/metric/generator.go:82-84 | Re-sorting a resource's metrics keeps everything else, keeps the metrics as a permutation, and orders them by name. |
| `MetricGenerator.BuildDocument` | exp/metric-gen/metric/generator.go:71-106 | Each stored resource with metrics appears exactly once. The output is a permutation of those resources with their metrics sorted, ordered by the resource order, and every output resource has sorted, non-empty metrics. |
| `MetricGenerator.EntriesHaveSortedMetrics` | exp/metric-gen/metric/generator.go:79-88 | Only resources with metrics reach the output, each with its metrics sorted by name. |
| `MetricGenerator.NeedResource` | exp/metric-gen/metric/generator.go:63-67 | Requesting a stored kind changes nothing. Otherwise the request succeeds exactly when `BuildResource` over the packages indexed so far does, and stores the built resource. Exactly that kind is added, earlier entries are kept, the index is unchanged, and the errors only grow. |
| `MetricGenerator.NeedResources` | exp/metric-gen/metric/generator.go:63-67 | Requesting a root's kinds in order leaves the index unchanged and, on success, every kind stored. |
| `MetricGenerator.NeedResourcesTable` | exp/metric-gen/metric/generator.go:63-67 | After a root's kinds are requested, the stored keys are the earlier ones plus exactly those kinds. Earlier entries are unchanged and the errors only grow. |
| `MetricGenerator.NeedResourcesFailureSticks` | exp/metric-gen/metric/generator.go:63-67 | Once a kind's request fails, the rest of the root's requests end with that failure. |
| `MetricGenerator.RootStep` | exp/metric-gen/metric/generator.go:49-67 | A root without meta/v1 changes nothing, and a meta/v1 root with no kinds is fatal. On success a meta/v1 root's package has been indexed (`Load`) and every one of its kinds is stored. |
| `MetricGenerator.ProcessRoots` | exp/metric-gen/metric/generator.go:49-68 | On success every meta/v1 root had kinds. |
| `MetricGenerator.ProcessRootsTable` | exp/metric-gen/metric/generator.go:49-68 | Roots without meta/v1 are skipped and a meta/v1 root with no kinds is fatal. At the end exactly the kinds of the meta/v1 roots have been added, earlier entries and errors are kept, and every meta/v1 root's package is indexed. |
| `MetricGenerator.ProcessRootsFailureSticks` | exp/metric-gen/metric/generator.go:49-68 | Once a root fails, the whole loop ends with that failure. |
| `MetricGenerator.MarkedWithoutMetrics` | exp/metric-gen/generator/parser.go:77-83 | A type carrying only the kind marker and no fields is marked, gives no generators and carries no resource marker. |
| `MetricGenerator.FirstPassMarkedPair` | exp/metric-gen/generator/parser.go:70-93 | The first pass over one such package takes its version. Over a second such package it is fatal, because the version is already set. |
| `MetricGenerator.BuildFromOnePackage` | exp/metric-gen/generator/parser.go:50-114 | With one indexed package of the group at v1, the kind is built at version v1 with no metrics, prefix or labels, and no errors. |
| `MetricGenerator.BuildFromTwoPackages` | exp/metric-gen/generator/parser.go:70-93 | With two marked packages of the group, at v1 and v2, both indexed, building the kind is fatal. |
| `MetricGenerator.RootOfStoredKind` | exp/metric-gen/generator/parser.go:50-53 | A meta/v1 root whose only kind is already stored only indexes its package. |
| `MetricGenerator.FirstRootStores` | exp/metric-gen/metric/generator.go:56-67 | On empty tables, a meta/v1 root of group `g` at v1 whose only kind `k` is marked is indexed alone, and its request stores `k` at version v1. |
| `MetricGenerator.SeparateRootsSucceed` | exp/metric-gen/metric/generator.go:49-68 | Two roots of one group, at v1 and v2, each marking the same kind: because each root is indexed just before its own kinds are requested, the run succeeds and stores the kind at v1. |
| `MetricGenerator.BothIndexedIsFatal` | exp/metric-gen/metric/generator.go:56-67 | Had both packages of those roots been indexed before the kind was requested, the request would be fatal. This is why per-root indexing matters. |
| `MetricGenerator.RequestKinds` | exp/metric-gen/metric/generator.go:63-67 | The loop over a root's kinds leaves the parser's tables as `NeedResources` computes them, and fails as it does. |
| `MetricGenerator.HandleRoot` | exp/metric-gen/metric/generator.go:50-67 | One iteration of the roots loop leaves the parser's index and tables as `RootStep` computes them, and fails as it does. |
| `MetricGenerator.Generate` | exp/metric-gen/metric/generator.go:39-106 | The parser's index and tables end as `ProcessRoots` computes them, and failures are the same. On success the result is the document for the final table. |
| `MetricGenerator.AddCustomResourceStateKind` | exp/metric-gen/metric/generator.go:119-122 | `kind` is set to `CustomResourceStateMetrics`, every other key is unchanged, and no error is returned. |

## Left out

- Rendering and writing YAML (`ctx.WriteYAML`, generator.go:109-112) is I/O. The model stops at the sorted resource list and stamps `kind` on an abstract map.
- The command line (`main.go`) is not part of this model. Neither are the marker registry and help text (`Help`, `help`, `Register`, `RegisterMarkers`, `definitionWithHelp`, `must`, the `init` functions) or `CheckFilter`.
- The loader and the Go type checker are oracles in `Universe`:
  - `TypesInfo.TypeOf` is `typeOf`.
  - `Imports()` is `imports`.
  - The package loader hands each root over as a `Package`: its path, the group version its package markers declare, and its types. Reading the package markers and `EachType` happen inside controller-tools' `NeedPackage`, which is not part of this model; indexing the result is `Load`.
  - `FindKubeKinds` is not part of this model. A `Root` arrives with the kinds it would find once the root is indexed.
  - `NeedTypesInfo` and `newGeneratorContext` carry no behaviour of their own.
- `loader.NonVendorPath` is taken to be the identity on package paths.
- The JSONPath library's own parse is the oracle `Library`; it receives the path, and wrapping it in braces is part of the oracle. Only the post-processing of its tree is modelled. The `ListNode` typecast failure (markers.go:107-110) cannot arise, because a list node is its own node type here.
- `JsonPath.FromTree`: a root with no nodes is reported as the error `EmptyRoot`. The Go code indexes the missing first node and panics. The two agree where a parse error is fatal (the metric builders). They differ for the label-from-path marker, where the model records the error and goes on instead of panicking.
- Go map iteration orders are inputs:
  - The order of `GroupVersions` is the parser's `packageOrder`. The constructor seeds it, and `Load` appends a package it does not yet visit. Adding a key to a Go map may reorder the existing keys; the model keeps their order.
  - Marker maps and field lists are sequences in iteration order.
  - The range over `CustomResourceStates` is the nondeterministic choice in `BuildDocument`.
- `Ordering.SortBy`: `sort.Slice` works in place and is not stable. The model sorts a sequence with a stable insertion sort and claims only sortedness and permutation. The aliasing between a ranged-over copy of a Resource and the table's slice is not modelled.
- `Parser.TypeGenerators`: the recursion is bounded by `fuel`, and the model returns `Diverges` when the fuel runs out. `TypeGeneratorsFuelMonotone` proves that any other result does not depend on the fuel. The source never writes `FlattenedMetrics`, so `SelfReferenceDiverges` proves that a self-referential type diverges for every fuel. `FlattenedMetrics` is modelled as a table that stays as it was built.
- `Parser.FieldsGenerators`: its own contract states only that the generators are typed. The concatenation in declaration order is the lemma `FieldsGeneratorsInOrder`, because stating it in the function's postcondition would call the mutually recursive field walk from there.
- `Parser.MarkerGenerators`: likewise, its own contract states the shape of the result. The per-marker results in marker order are the lemma `MarkerGeneratorsInOrder`.
- `Parser.FirstPass`: its contract states only the ordering of the metrics. The version and metrics facts are the separate lemmas `FirstPassVersions`, `FirstPassVersionSource`, `FirstPassMetricsSource` and `FirstPassUnmarked`.
- `MetricGenerator.Generate`: on a `Fatal` or `Diverges` outcome the contract does not state the tables' contents, because the process exits there.
- `klog.Fatal` messages, the `nil` versus empty-slice distinction, and the source positions attached by `ErrFromNode` are not modelled. `pkg.AddError` is an append to the parser's error list, tagged with the package.

## Findings

| source | as written | input that shows it | evidently intended | confidence | as-written member | corrected member |
|---|---|---|---|---|---|---|
| exp/metric-gen/metric/generator.go:97-105 | The resource comparator reads resource i's prefix only when it is nil, so it dereferences nil then. When the prefix is set it compares "" with resource j's prefix. | i without a prefix and j with prefix `p`: nil dereference. i with prefix `a` and j with prefix `b`: both less(i, j) and less(j, i) are true, so `sort.Slice` gets an inconsistent order. | Read each prefix when it is set: resources without a prefix first, by Group/Version/Kind, then prefixed ones by prefix. The corrected key differs from that reading only for an empty prefix, which it still places after every unprefixed resource. | high; not executed | `MetricGenerator.LessAsWritten` (`MetricGenerator.AsWrittenPanics`, `MetricGenerator.AsWrittenNotAsymmetric`) | `MetricGenerator.ResourceLess` (`MetricGenerator.ResourceLessIsStrictWeakOrder`) |
