/** metric/generator.go: `Generate` requests a resource for every kube
    kind of every root that imports meta/v1, then keeps the resources that
    have metrics and sorts them; `addCustomResourceStateKind` stamps the
    `kind` key on the rendered object. Loading packages, finding kube
    kinds and writing YAML are outside the model: a root arrives with its
    kinds already found. */
module MetricGenerator {
  import opened Outcomes
  import opened Ordering
  import opened CustomResourceState
  import opened ResourceMarkers
  import opened Parser

  // ---------------------------------------------------------------- the resource order

  /** The string `Group/Version/Kind` that resources without a prefix are ordered by. */
  function GvkString(v: GroupVersionKind): string
  {
    v.group + "/" + v.version + "/" + v.kind
  }

  /** The comparator handed to `sort.Slice` for the resources, as written:
      with both prefixes nil it compares the GVK strings; otherwise it
      dereferences the first prefix exactly when it is nil (a panic) and,
      when the first prefix is set, compares "" with the second prefix. */
  function LessAsWritten(a: ResourceValue, b: ResourceValue): (r: Outcome<bool>)
    ensures r.Done? || r.Fatal?
    ensures r.Fatal? <==> a.metricNamePrefix.None? && b.metricNamePrefix.Some?
    ensures a.metricNamePrefix.None? && b.metricNamePrefix.None? ==> r == Done(ResourceLess(a, b))
    ensures a.metricNamePrefix.Some? ==> r == Done(b.metricNamePrefix.Some? && b.metricNamePrefix.value != "")
  {
    if a.metricNamePrefix.None? && b.metricNamePrefix.None? then
      Done(StringLess(GvkString(a.gvk), GvkString(b.gvk)))
    else if a.metricNamePrefix.None? then
      Fatal
    else
      Done(StringLess("", if b.metricNamePrefix.Some? then b.metricNamePrefix.value else ""))
  }

  /** A resource with no prefix compared with one that has a prefix panics. */
  lemma AsWrittenPanics(v: GroupVersionKind, metrics: seq<Generator>)
    ensures LessAsWritten(ResourceValue(v, None, None, metrics), ResourceValue(v, Some("p"), None, metrics)) == Fatal
  {
  }

  /** With both prefixes set the comparator is not a strict order: each of
      two resources with prefixes "a" and "b" is less than the other. */
  lemma AsWrittenNotAsymmetric(v: GroupVersionKind, metrics: seq<Generator>)
    ensures var x := ResourceValue(v, Some("a"), None, metrics);
            var y := ResourceValue(v, Some("b"), None, metrics);
            LessAsWritten(x, y) == Done(true) && LessAsWritten(y, x) == Done(true)
  {
    var x := ResourceValue(v, Some("a"), None, metrics);
    var y := ResourceValue(v, Some("b"), None, metrics);
    assert StringLess("", "b") && StringLess("", "a");
  }

  /** The order the comparator evidently means: resources without a prefix
      first, by GVK string, then those with a prefix, by prefix. */
  function ResourceKey(r: ResourceValue): (k: SortKey)
    ensures k.rank == 0 <==> r.metricNamePrefix.None?
    ensures r.metricNamePrefix.None? ==> k.text == GvkString(r.gvk)
    ensures r.metricNamePrefix.Some? ==> k.text == r.metricNamePrefix.value
  {
    if r.metricNamePrefix.None? then SortKey(0, GvkString(r.gvk))
    else SortKey(1, r.metricNamePrefix.value)
  }

  predicate ResourceLess(a: ResourceValue, b: ResourceValue): (r: bool)
    ensures a.metricNamePrefix.None? && b.metricNamePrefix.Some? ==> r
    ensures a.metricNamePrefix.Some? && b.metricNamePrefix.None? ==> !r
    ensures a.metricNamePrefix.None? && b.metricNamePrefix.None? ==>
      (r <==> StringLess(GvkString(a.gvk), GvkString(b.gvk)))
    ensures a.metricNamePrefix.Some? && b.metricNamePrefix.Some? ==>
      (r <==> StringLess(a.metricNamePrefix.value, b.metricNamePrefix.value))
  {
    KeyLess(ResourceKey(a), ResourceKey(b))
  }

  /** `ResourceLess` is a strict weak order: irreflexive, transitive, and
      two resources neither of which is less have the same key. */
  lemma ResourceLessIsStrictWeakOrder(a: ResourceValue, b: ResourceValue, c: ResourceValue)
    ensures !ResourceLess(a, a)
    ensures ResourceLess(a, b) && ResourceLess(b, c) ==> ResourceLess(a, c)
    ensures !ResourceLess(a, b) && !ResourceLess(b, a) ==> ResourceKey(a) == ResourceKey(b)
  {
    KeyLessIrreflexive(ResourceKey(a));
    if ResourceLess(a, b) && ResourceLess(b, c) {
      KeyLessTransitive(ResourceKey(a), ResourceKey(b), ResourceKey(c));
    }
    if ResourceKey(a) != ResourceKey(b) {
      KeyLessTotal(ResourceKey(a), ResourceKey(b));
    }
  }

  /** Where the written comparator is meaningful, the corrected order agrees
      with it: without prefixes both compare the GVK strings; and it puts a
      resource without a prefix before one with a non-empty prefix, as the
      intended "" < prefix comparison does. */
  lemma ResourceLessAgrees(a: ResourceValue, b: ResourceValue)
    ensures a.metricNamePrefix.None? && b.metricNamePrefix.None? ==>
              LessAsWritten(a, b) == Done(ResourceLess(a, b))
    ensures a.metricNamePrefix.Some? && b.metricNamePrefix.Some? ==>
              (ResourceLess(a, b) <==> StringLess(a.metricNamePrefix.value, b.metricNamePrefix.value))
    ensures a.metricNamePrefix.None? && b.metricNamePrefix.Some? && b.metricNamePrefix.value != "" ==>
              ResourceLess(a, b) && !ResourceLess(b, a) && StringLess("", b.metricNamePrefix.value)
  {
  }

  // ---------------------------------------------------------------- the document

  /** A stored resource as it is written: its metrics sorted by name. */
  function Normalized(v: ResourceValue): (r: ResourceValue)
    ensures r.gvk == v.gvk && r.metricNamePrefix == v.metricNamePrefix && r.labelsFromPath == v.labelsFromPath
    ensures multiset(r.metrics) == multiset(v.metrics) && SortedBy(r.metrics, NameKey)
  {
    v.(metrics := SortBy(v.metrics, NameKey))
  }

  /** The normalized resources stored under `keys`, in that order. */
  function Entries(table: map<GroupKind, ResourceValue>, keys: seq<GroupKind>): (r: seq<ResourceValue>)
    requires forall k :: k in keys ==> k in table
    ensures |r| == |keys|
    ensures forall i :: 0 <= i < |keys| ==> r[i] == Normalized(table[keys[i]])
  {
    if |keys| == 0 then []
    else Entries(table, keys[..|keys| - 1]) + [Normalized(table[keys[|keys| - 1]])]
  }

  /** `resources` is the document for `table`, the table's keys being visited
      in the order `keys`: each key with metrics exactly once, the resources
      a permutation of their normalized entries, sorted by the resource
      order, with each resource's metrics sorted by name. */
  ghost predicate IsDocumentOf(resources: seq<ResourceValue>, keys: seq<GroupKind>, table: map<GroupKind, ResourceValue>)
  {
    && (forall i, j :: 0 <= i < j < |keys| ==> keys[i] != keys[j])
    && (forall k :: k in keys <==> k in table && |table[k].metrics| > 0)
    && multiset(resources) == multiset(Entries(table, keys))
    && SortedBy(resources, ResourceKey)
    && (forall r :: r in resources ==> |r.metrics| > 0 && SortedBy(r.metrics, NameKey))
  }

  /** Lines 71-106 of `Generate`: ranging over the table in some order,
      keeping resources with metrics, sorting their metrics and then the
      resources. The order of the range is the choice of `k`. */
  method BuildDocument(table: map<GroupKind, ResourceValue>) returns (resources: seq<ResourceValue>, ghost keys: seq<GroupKind>)
    ensures IsDocumentOf(resources, keys, table)
  {
    var unsorted: seq<ResourceValue> := [];
    keys := [];
    var remaining := table.Keys;
    while remaining != {}
      invariant remaining <= table.Keys
      invariant forall i, j :: 0 <= i < j < |keys| ==> keys[i] != keys[j]
      invariant forall k :: k in keys <==> k in table && k !in remaining && |table[k].metrics| > 0
      invariant unsorted == Entries(table, keys)
      decreases remaining
    {
      var k :| k in remaining;
      remaining := remaining - {k};
      var resource := table[k];
      if |resource.metrics| > 0 {
        resource := resource.(metrics := SortBy(resource.metrics, NameKey));
        assert (keys + [k])[..|keys|] == keys;
        unsorted := unsorted + [resource];
        keys := keys + [k];
      }
    }
    resources := SortBy(unsorted, ResourceKey);
    EntriesHaveSortedMetrics(table, keys, resources);
  }

  /** A permutation of the entries of keys with metrics holds only resources
      with metrics, each sorted by name. */
  lemma EntriesHaveSortedMetrics(table: map<GroupKind, ResourceValue>, keys: seq<GroupKind>, resources: seq<ResourceValue>)
    requires forall k :: k in keys ==> k in table && |table[k].metrics| > 0
    requires multiset(resources) == multiset(Entries(table, keys))
    ensures forall r :: r in resources ==> |r.metrics| > 0 && SortedBy(r.metrics, NameKey)
  {
    var entries := Entries(table, keys);
    forall r | r in resources
      ensures |r.metrics| > 0 && SortedBy(r.metrics, NameKey)
    {
      assert r in multiset(entries);
      var i :| 0 <= i < |entries| && entries[i] == r;
      var source := table[keys[i]];
      assert multiset(r.metrics) == multiset(source.metrics);
      assert source.metrics[0] in multiset(r.metrics);
    }
  }

  // ---------------------------------------------------------------- the roots

  /** A root package: the package the loader hands over, whether it imports
      meta/v1, and the kube kinds found in it once it is indexed. */
  datatype Root = Root(pkg: Package, importsMetaV1: bool, kubeKinds: seq<GroupKind>)

  /** The parser's written state: its package index and its two tables. */
  datatype Tables = Tables(index: Index, resources: map<GroupKind, ResourceValue>, errors: seq<PackageError>)

  /** The universe a request sees: the fixed oracles of `base` over the types indexed so far. */
  function Current(base: Universe, ix: Index): (u: Universe)
    ensures u.types == ix.types && u.typeOf == base.typeOf && u.imports == base.imports
    ensures u.lib == base.lib && u.flattened == base.flattened
  {
    base.(types := ix.types)
  }

  /** One `NeedResourceFor` call on the tables: a known kind is left alone,
      a new one is built from the packages indexed so far and stored under
      its own key only. */
  function NeedResource(base: Universe, st: Tables, gk: GroupKind, fuel: nat): (r: Outcome<Tables>)
    ensures gk in st.resources ==> r == Done(st)
    ensures r.Done? ==> r.value.index == st.index
    ensures r.Done? ==> r.value.resources.Keys == st.resources.Keys + {gk}
    ensures r.Done? ==> forall k :: k in st.resources ==> r.value.resources[k] == st.resources[k]
    ensures r.Done? ==> st.errors <= r.value.errors
    ensures gk !in st.resources ==>
      var built := BuildResource(Current(base, st.index), st.index.groupVersions, st.index.order, gk, fuel);
      && (r.Done? <==> built.Done?)
      && (r.Done? ==> r.value.resources[gk] == built.value.0)
  {
    if gk in st.resources then Done(st)
    else
      var built :- BuildResource(Current(base, st.index), st.index.groupVersions, st.index.order, gk, fuel);
      Done(Tables(st.index, st.resources[gk := built.0], st.errors + built.1))
  }

  /** The kinds of one root, requested in order: on success every one of
      them is stored and the index is unchanged. */
  function NeedResources(base: Universe, st: Tables, kinds: seq<GroupKind>, fuel: nat): (r: Outcome<Tables>)
    ensures r.Done? ==> r.value.index == st.index
    ensures r.Done? ==> forall k :: k in kinds ==> k in r.value.resources
  {
    if |kinds| == 0 then Done(st)
    else
      var before :- NeedResources(base, st, kinds[..|kinds| - 1], fuel);
      assert forall k :: k in kinds ==> k in kinds[..|kinds| - 1] || k == kinds[|kinds| - 1];
      NeedResource(base, before, kinds[|kinds| - 1], fuel)
  }

  /** One root: a root without meta/v1 is skipped; any other root is
      indexed, and then it is fatal when it has no kube kinds, and its kinds
      are requested otherwise. */
  function RootStep(base: Universe, st: Tables, root: Root, fuel: nat): (r: Outcome<Tables>)
    ensures !root.importsMetaV1 ==> r == Done(st)
    ensures root.importsMetaV1 && |root.kubeKinds| == 0 ==> r == Fatal
    ensures r.Done? ==> r.value.index == if root.importsMetaV1 then Load(st.index, root.pkg) else st.index
    ensures r.Done? ==> forall k :: k in root.kubeKinds && root.importsMetaV1 ==> k in r.value.resources
  {
    if !root.importsMetaV1 then Done(st)
    else
      var indexed := st.(index := Load(st.index, root.pkg));
      if |root.kubeKinds| == 0 then Fatal
      else NeedResources(base, indexed, root.kubeKinds, fuel)
  }

  /** The loop over the roots, in order, stopping at the first failure. */
  function ProcessRoots(base: Universe, st: Tables, roots: seq<Root>, fuel: nat): (r: Outcome<Tables>)
    ensures r.Done? ==> forall i :: 0 <= i < |roots| && roots[i].importsMetaV1 ==> |roots[i].kubeKinds| > 0
  {
    if |roots| == 0 then Done(st)
    else
      var before :- ProcessRoots(base, st, roots[..|roots| - 1], fuel);
      assert forall i :: 0 <= i < |roots| - 1 ==> roots[..|roots| - 1][i] == roots[i];
      RootStep(base, before, roots[|roots| - 1], fuel)
  }

  lemma PrefixTransitive<T>(a: seq<T>, b: seq<T>, c: seq<T>)
    requires a <= b && b <= c
    ensures a <= c
  {
    assert c[..|a|] == b[..|a|];
  }

  /** Requesting kinds keeps every stored resource and error, and stores
      exactly the requested kinds besides. */
  lemma {:induction false} NeedResourcesTable(base: Universe, st: Tables, kinds: seq<GroupKind>, fuel: nat)
    requires NeedResources(base, st, kinds, fuel).Done?
    ensures var out := NeedResources(base, st, kinds, fuel).value;
            && (forall k :: k in out.resources <==> k in st.resources || k in kinds)
            && (forall k :: k in st.resources ==> k in out.resources && out.resources[k] == st.resources[k])
            && st.errors <= out.errors
  {
    if |kinds| > 0 {
      var front := kinds[..|kinds| - 1];
      var last := kinds[|kinds| - 1];
      NeedResourcesTable(base, st, front, fuel);
      var mid := NeedResources(base, st, front, fuel).value;
      var out := NeedResources(base, st, kinds, fuel);
      assert out == NeedResource(base, mid, last, fuel);
      assert forall k :: k in kinds <==> k in front || k == last;
      PrefixTransitive(st.errors, mid.errors, out.value.errors);
    }
  }

  /** After all roots: the stored resources are kept, the errors only grow,
      every kind of a meta/v1 root is stored and nothing else is, every
      meta/v1 root had kinds, and every meta/v1 root's package is indexed. */
  lemma {:induction false} ProcessRootsTable(base: Universe, st: Tables, roots: seq<Root>, fuel: nat)
    requires ProcessRoots(base, st, roots, fuel).Done?
    ensures var out := ProcessRoots(base, st, roots, fuel).value;
            && (forall k :: k in st.resources ==> k in out.resources && out.resources[k] == st.resources[k])
            && st.errors <= out.errors
            && (forall k :: k in out.resources <==>
                  k in st.resources || exists i :: 0 <= i < |roots| && roots[i].importsMetaV1 && k in roots[i].kubeKinds)
            && (forall i :: 0 <= i < |roots| && roots[i].importsMetaV1 ==> |roots[i].kubeKinds| > 0)
            && (forall i :: 0 <= i < |roots| && roots[i].importsMetaV1 ==> roots[i].pkg.id in out.index.loaded)
            && st.index.loaded <= out.index.loaded
  {
    if |roots| > 0 {
      var front := roots[..|roots| - 1];
      var root := roots[|roots| - 1];
      ProcessRootsTable(base, st, front, fuel);
      var mid := ProcessRoots(base, st, front, fuel).value;
      if root.importsMetaV1 {
        NeedResourcesTable(base, mid.(index := Load(mid.index, root.pkg)), root.kubeKinds, fuel);
      }
      var out := ProcessRoots(base, st, roots, fuel).value;
      assert mid.errors <= out.errors;
      assert mid.index.loaded <= out.index.loaded;
      PrefixTransitive(st.errors, mid.errors, out.errors);
      forall k | k in out.resources
        ensures k in st.resources || exists i :: 0 <= i < |roots| && roots[i].importsMetaV1 && k in roots[i].kubeKinds
      {
        if k !in mid.resources {
          assert k in root.kubeKinds && roots[|roots| - 1] == root;
        } else if k !in st.resources {
          var i :| 0 <= i < |front| && front[i].importsMetaV1 && k in front[i].kubeKinds;
          assert roots[i] == front[i];
        }
      }
      forall k | k in st.resources || exists i :: 0 <= i < |roots| && roots[i].importsMetaV1 && k in roots[i].kubeKinds
        ensures k in out.resources
      {
        if k !in st.resources {
          var i :| 0 <= i < |roots| && roots[i].importsMetaV1 && k in roots[i].kubeKinds;
          if i < |front| {
            assert front[i] == roots[i];
          }
        }
      }
      forall i | 0 <= i < |roots| && roots[i].importsMetaV1
        ensures |roots[i].kubeKinds| > 0 && roots[i].pkg.id in out.index.loaded
      {
        if i < |front| {
          assert front[i] == roots[i];
        }
      }
    }
  }

  /** A package whose type `k` carries only the kind marker and has no
      fields: it is marked and gives no generators. */
  lemma MarkedWithoutMetrics(u: Universe, p: PkgId, k: string, fuel: nat)
    requires TypeIdent(p, k) in u.types && u.types[TypeIdent(p, k)] == TypeInfo([GvkMarker], [])
    requires TypeIdent(p, k) !in u.flattened && fuel >= 1
    ensures Marked(u, k, p) && TypeGenerators(u, TypeIdent(p, k), fuel) == Done([])
    ensures ResourceMarkersIn(p, u.types[TypeIdent(p, k)].markers) == []
  {
    assert [GvkMarker][..0] == [];
    assert MarkerGenerators(u.lib, [], []) == Done([]);
    assert GeneratorOf(u.lib, GvkMarker, []) == Done([]);
    assert MarkerGenerators(u.lib, [GvkMarker], []) == Done([] + []);
    assert ResourceMarkersIn(p, [GvkMarker]) == [];
  }

  /** The first pass over one marked package without metrics takes its
      version; over a second one it aborts. */
  lemma FirstPassMarkedPair(u: Universe, gvs: map<PkgId, GroupVersion>, k: string, a: PkgId, b: PkgId, fuel: nat)
    requires a in gvs && b in gvs && gvs[a].version != ""
    requires Marked(u, k, a) && TypeGenerators(u, TypeIdent(a, k), fuel) == Done([])
    requires Marked(u, k, b) && TypeGenerators(u, TypeIdent(b, k), fuel) == Done([])
    ensures FirstPass(u, gvs, k, [a], fuel) == Done(Versioned([], gvs[a].version))
    ensures FirstPass(u, gvs, k, [a, b], fuel) == Fatal
  {
    assert SortBy([], NameKey) == [];
    assert [a, b][..0] == [] && [a, b][..1] == [a] && [a, b][..2] == [a, b];
    FirstPassStep(u, gvs, k, [a, b], fuel, 0);
    FirstPassStep(u, gvs, k, [a, b], fuel, 1);
  }

  /** The resource stored for a kind whose only declaring package is marked
      and has no metrics or resource markers. */
  lemma BuildFromOnePackage(u: Universe, gvs: map<PkgId, GroupVersion>, a: PkgId, gk: GroupKind, fuel: nat)
    requires gvs == map[a := GroupVersion(gk.group, "v1")]
    requires TypeIdent(a, gk.kind) in u.types && u.types[TypeIdent(a, gk.kind)] == TypeInfo([GvkMarker], [])
    requires TypeIdent(a, gk.kind) !in u.flattened && fuel >= 1
    ensures BuildResource(u, gvs, [a], gk, fuel) ==
            Done((ResourceValue(GroupVersionKind(gk.group, "v1", gk.kind), None, None, []), []))
  {
    MarkedWithoutMetrics(u, a, gk.kind, fuel);
    assert [a][..0] == [];
    assert Candidates([a], gvs, gk.group) == [a];
    FirstPassMarkedPair(u, gvs, gk.kind, a, a, fuel);
    assert MarkersOfPackages(u, gk.kind, [a]) == [];
  }

  /** Two marked packages of one group, at versions v1 and v2, declaring
      the kind without metrics: building the resource aborts. */
  lemma BuildFromTwoPackages(u: Universe, gvs: map<PkgId, GroupVersion>, a: PkgId, b: PkgId, gk: GroupKind, fuel: nat)
    requires a != b
    requires gvs == map[a := GroupVersion(gk.group, "v1"), b := GroupVersion(gk.group, "v2")]
    requires TypeIdent(a, gk.kind) in u.types && u.types[TypeIdent(a, gk.kind)] == TypeInfo([GvkMarker], [])
    requires TypeIdent(b, gk.kind) in u.types && u.types[TypeIdent(b, gk.kind)] == TypeInfo([GvkMarker], [])
    requires TypeIdent(a, gk.kind) !in u.flattened && TypeIdent(b, gk.kind) !in u.flattened && fuel >= 1
    ensures BuildResource(u, gvs, [a, b], gk, fuel) == Fatal
  {
    MarkedWithoutMetrics(u, a, gk.kind, fuel);
    MarkedWithoutMetrics(u, b, gk.kind, fuel);
    assert [a, b][..1] == [a] && [a][..0] == [];
    assert Candidates([a], gvs, gk.group) == [a];
    assert Candidates([a, b], gvs, gk.group) == [a, b];
    FirstPassMarkedPair(u, gvs, gk.kind, a, b, fuel);
  }

  /** A root whose only kind is already stored changes nothing but the index. */
  lemma RootOfStoredKind(base: Universe, st: Tables, root: Root, fuel: nat)
    requires root.importsMetaV1 && |root.kubeKinds| == 1 && root.kubeKinds[0] in st.resources
    ensures RootStep(base, st, root, fuel) == Done(st.(index := Load(st.index, root.pkg)))
  {
    var indexed := st.(index := Load(st.index, root.pkg));
    assert root.kubeKinds[..0] == [];
    assert NeedResources(base, indexed, [], fuel) == Done(indexed);
    assert NeedResource(base, indexed, root.kubeKinds[0], fuel) == Done(indexed);
  }

  /** The first root of `SeparateRootsSucceed`, on empty tables: only its
      own package is indexed when `k` is requested, so `k` is stored at v1. */
  lemma FirstRootStores(base: Universe, a: PkgId, g: string, k: string, fuel: nat)
    requires fuel >= 1 && TypeIdent(a, k) !in base.flattened
    ensures var pa := Package(a, Some(GroupVersion(g, "v1")), map[TypeIdent(a, k) := TypeInfo([GvkMarker], [])]);
            var st0 := Tables(Index(map[], map[], [], {}), map[], []);
            var stored := ResourceValue(GroupVersionKind(g, "v1", k), None, None, []);
            RootStep(base, st0, Root(pa, true, [GroupKind(g, k)]), fuel) ==
            Done(Tables(Load(st0.index, pa), map[GroupKind(g, k) := stored], []))
  {
    var info := TypeInfo([GvkMarker], []);
    var gk := GroupKind(g, k);
    var pa := Package(a, Some(GroupVersion(g, "v1")), map[TypeIdent(a, k) := info]);
    var st0 := Tables(Index(map[], map[], [], {}), map[], []);
    var ix1 := Load(st0.index, pa);
    assert ix1.types == map[TypeIdent(a, k) := info];
    assert ix1.groupVersions == map[a := GroupVersion(g, "v1")];
    assert ix1.order == [a];
    BuildFromOnePackage(Current(base, ix1), ix1.groupVersions, a, gk, fuel);
    var st1 := Tables(ix1, map[gk := ResourceValue(GroupVersionKind(g, "v1", k), None, None, [])], []);
    assert [gk][..0] == [];
    assert NeedResources(base, st0.(index := ix1), [], fuel) == Done(st0.(index := ix1));
    assert NeedResource(base, st0.(index := ix1), gk, fuel) == Done(st1);
    assert NeedResources(base, st0.(index := ix1), [gk], fuel) == Done(st1);
  }

  /** Two roots of group `g`, at versions v1 and v2, each declaring kind `k`
      with the kind marker. Indexing each root just before its kinds are
      requested stores `k` at v1 while only the first package is indexed;
      the second root's request then finds `k` stored, and the run succeeds. */
  lemma SeparateRootsSucceed(base: Universe, a: PkgId, b: PkgId, g: string, k: string, fuel: nat)
    requires a != b && fuel >= 1
    requires TypeIdent(a, k) !in base.flattened
    ensures var info := TypeInfo([GvkMarker], []);
            var ra := Root(Package(a, Some(GroupVersion(g, "v1")), map[TypeIdent(a, k) := info]), true, [GroupKind(g, k)]);
            var rb := Root(Package(b, Some(GroupVersion(g, "v2")), map[TypeIdent(b, k) := info]), true, [GroupKind(g, k)]);
            var out := ProcessRoots(base, Tables(Index(map[], map[], [], {}), map[], []), [ra, rb], fuel);
            && out.Done?
            && out.value.resources == map[GroupKind(g, k) := ResourceValue(GroupVersionKind(g, "v1", k), None, None, [])]
  {
    var info := TypeInfo([GvkMarker], []);
    var gk := GroupKind(g, k);
    var pa := Package(a, Some(GroupVersion(g, "v1")), map[TypeIdent(a, k) := info]);
    var ra := Root(pa, true, [gk]);
    var rb := Root(Package(b, Some(GroupVersion(g, "v2")), map[TypeIdent(b, k) := info]), true, [gk]);
    var st0 := Tables(Index(map[], map[], [], {}), map[], []);
    FirstRootStores(base, a, g, k, fuel);
    var st1 := Tables(Load(st0.index, pa), map[gk := ResourceValue(GroupVersionKind(g, "v1", k), None, None, [])], []);
    assert [ra, rb][..1] == [ra] && [ra][..0] == [];
    assert ProcessRoots(base, st0, [], fuel) == Done(st0);
    assert ProcessRoots(base, st0, [ra], fuel) == Done(st1);
    RootOfStoredKind(base, st1, rb, fuel);
  }

  /** Had both packages of `SeparateRootsSucceed` been indexed before `k` was
      requested, the first pass would meet the second version and abort. */
  lemma BothIndexedIsFatal(base: Universe, a: PkgId, b: PkgId, g: string, k: string, fuel: nat)
    requires a != b && fuel >= 1
    requires TypeIdent(a, k) !in base.flattened && TypeIdent(b, k) !in base.flattened
    ensures var info := TypeInfo([GvkMarker], []);
            var pa := Package(a, Some(GroupVersion(g, "v1")), map[TypeIdent(a, k) := info]);
            var pb := Package(b, Some(GroupVersion(g, "v2")), map[TypeIdent(b, k) := info]);
            var ix := Load(Load(Index(map[], map[], [], {}), pa), pb);
            NeedResource(base, Tables(ix, map[], []), GroupKind(g, k), fuel) == Fatal
  {
    var info := TypeInfo([GvkMarker], []);
    var pa := Package(a, Some(GroupVersion(g, "v1")), map[TypeIdent(a, k) := info]);
    var pb := Package(b, Some(GroupVersion(g, "v2")), map[TypeIdent(b, k) := info]);
    var ix := Load(Load(Index(map[], map[], [], {}), pa), pb);
    assert ix.order == [a, b];
    assert ix.groupVersions == map[a := GroupVersion(g, "v1"), b := GroupVersion(g, "v2")];
    assert ix.types == map[TypeIdent(a, k) := info, TypeIdent(b, k) := info];
    BuildFromTwoPackages(Current(base, ix), ix.groupVersions, a, b, GroupKind(g, k), fuel);
  }

  /** One more kind requested. */
  lemma NeedResourcesSnoc(base: Universe, st: Tables, kinds: seq<GroupKind>, fuel: nat, j: nat)
    requires j < |kinds| && NeedResources(base, st, kinds[..j], fuel).Done?
    ensures NeedResources(base, st, kinds[..j + 1], fuel) ==
            NeedResource(base, NeedResources(base, st, kinds[..j], fuel).value, kinds[j], fuel)
  {
    assert kinds[..j + 1][..j] == kinds[..j];
  }

  lemma {:induction false} NeedResourcesFailureSticks(base: Universe, st: Tables, kinds: seq<GroupKind>, fuel: nat, j: nat)
    requires j <= |kinds| && NeedResources(base, st, kinds[..j], fuel).IsFailure()
    ensures NeedResources(base, st, kinds, fuel) == NeedResources(base, st, kinds[..j], fuel)
    decreases |kinds| - j
  {
    if j < |kinds| {
      assert kinds[..j + 1][..j] == kinds[..j];
      NeedResourcesFailureSticks(base, st, kinds, fuel, j + 1);
    } else {
      assert kinds[..j] == kinds;
    }
  }

  lemma {:induction false} ProcessRootsFailureSticks(base: Universe, st: Tables, roots: seq<Root>, fuel: nat, i: nat)
    requires i <= |roots| && ProcessRoots(base, st, roots[..i], fuel).IsFailure()
    ensures ProcessRoots(base, st, roots, fuel) == ProcessRoots(base, st, roots[..i], fuel)
    decreases |roots| - i
  {
    if i < |roots| {
      assert roots[..i + 1][..i] == roots[..i];
      ProcessRootsFailureSticks(base, st, roots, fuel, i + 1);
    } else {
      assert roots[..i] == roots;
    }
  }

  /** The parser's written state. */
  function TablesOf(parser: Parser): Tables
    reads parser
  {
    Tables(parser.Ix(), parser.customResourceStates, parser.errors)
  }

  /** The kinds of one root, requested in a loop. `base` holds the fixed
      oracles; the types are those the parser has indexed. */
  method RequestKinds(parser: Parser, kinds: seq<GroupKind>, fuel: nat, ghost base: Universe) returns (status: Outcome<()>)
    requires parser.Valid() && parser.U() == Current(base, parser.Ix())
    modifies parser`customResourceStates, parser`errors
    ensures var run := NeedResources(base, old(TablesOf(parser)), kinds, fuel);
      && status.Fatal? == run.Fatal? && status.Diverges? == run.Diverges?
      && (run.Done? ==> TablesOf(parser) == run.value)
  {
    ghost var st := TablesOf(parser);
    var j := 0;
    while j < |kinds|
      invariant 0 <= j <= |kinds|
      invariant parser.Ix() == st.index && parser.U() == Current(base, st.index)
      invariant NeedResources(base, st, kinds[..j], fuel) == Done(TablesOf(parser))
    {
      NeedResourcesSnoc(base, st, kinds, fuel, j);
      status := parser.NeedResourceFor(kinds[j], fuel);
      if !status.Done? {
        NeedResourcesFailureSticks(base, st, kinds, fuel, j + 1);
        return;
      }
      j := j + 1;
    }
    assert kinds[..j] == kinds;
    return Done(());
  }

  /** The body of the loop over the roots for one root. */
  method HandleRoot(parser: Parser, root: Root, fuel: nat, ghost base: Universe) returns (status: Outcome<()>)
    requires parser.Valid() && parser.U() == Current(base, parser.Ix())
    modifies parser`types, parser`groupVersions, parser`packageOrder, parser`loaded
    modifies parser`customResourceStates, parser`errors
    ensures parser.Valid() && parser.U() == Current(base, parser.Ix())
    ensures var step := RootStep(base, old(TablesOf(parser)), root, fuel);
      && status.Fatal? == step.Fatal? && status.Diverges? == step.Diverges?
      && (step.Done? ==> TablesOf(parser) == step.value)
  {
    if !root.importsMetaV1 {
      return Done(());
    }
    parser.NeedPackage(root.pkg);
    if |root.kubeKinds| == 0 {
      return Fatal;
    }
    status := RequestKinds(parser, root.kubeKinds, fuel, base);
  }

  /** `Generate`, up to the rendering: each meta/v1 root is indexed and its
      kinds are requested, then the document is built from the parser's table. */
  method Generate(parser: Parser, roots: seq<Root>, fuel: nat)
    returns (r: Outcome<seq<ResourceValue>>, ghost keys: seq<GroupKind>)
    requires parser.Valid()
    modifies parser`types, parser`groupVersions, parser`packageOrder, parser`loaded
    modifies parser`customResourceStates, parser`errors
    ensures var run := ProcessRoots(old(parser.U()), old(TablesOf(parser)), roots, fuel);
      && r.Fatal? == run.Fatal? && r.Diverges? == run.Diverges?
      && (run.Done? ==>
            && TablesOf(parser) == run.value
            && IsDocumentOf(r.value, keys, parser.customResourceStates))
  {
    ghost var base := parser.U();
    ghost var st := TablesOf(parser);
    var i := 0;
    while i < |roots|
      invariant 0 <= i <= |roots|
      invariant parser.Valid()
      invariant parser.U() == Current(base, parser.Ix())
      invariant ProcessRoots(base, st, roots[..i], fuel) == Done(TablesOf(parser))
    {
      assert roots[..i + 1][..i] == roots[..i];
      var status := HandleRoot(parser, roots[i], fuel, base);
      if !status.Done? {
        ProcessRootsFailureSticks(base, st, roots, fuel, i + 1);
        return if status.Fatal? then Fatal else Diverges, [];
      }
      i := i + 1;
    }
    assert roots[..i] == roots;
    var resources;
    resources, keys := BuildDocument(parser.customResourceStates);
    return Done(resources), keys;
  }

  // ---------------------------------------------------------------- the kind stamp

  /** A value of the rendered YAML object. */
  datatype YamlValue = Text(text: string) | Structured

  /** The rendered object, a map that the transform updates in place. */
  class YamlObject {
    var entries: map<string, YamlValue>

    constructor (entries: map<string, YamlValue>)
      ensures this.entries == entries
    {
      this.entries := entries;
    }
  }

  /** `addCustomResourceStateKind`: sets `kind`, keeps every other key, never fails. */
  method AddCustomResourceStateKind(obj: YamlObject) returns (err: Option<string>)
    modifies obj
    ensures obj.entries == old(obj.entries)["kind" := Text("CustomResourceStateMetrics")]
    ensures obj.entries.Keys == old(obj.entries).Keys + {"kind"}
    ensures forall k :: k in old(obj.entries) && k != "kind" ==> obj.entries[k] == old(obj.entries)[k]
    ensures err == None
  {
    obj.entries := obj.entries["kind" := Text("CustomResourceStateMetrics")];
    return None;
  }
}
