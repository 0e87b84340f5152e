/** generator/parser.go: the walk over annotated Go types that assembles
    metric generators, and the per-GroupKind resource table. The Go type
    checker, the package loader and the JSONPath library are oracles
    held in a `Universe`. */
module Parser {
  import opened Outcomes
  import opened JsonPath
  import opened CustomResourceState
  import opened Ordering
  import GaugeMarkers
  import StateSetMarkers
  import InfoMarkers
  import opened ResourceMarkers

  /** A loaded package, named by its import path. */
  type PkgId = string

  datatype TypeIdent = TypeIdent(pkg: PkgId, name: string)
  datatype GroupVersion = GroupVersion(group: string, version: string)
  datatype GroupKind = GroupKind(group: string, kind: string)

  /** The shapes of a field's type expression that the walk tells apart. */
  datatype TypeExpr =
    | Ident(name: string)
    | Selector(x: TypeExpr, sel: string)     // pkg.Name
    | Star(x: TypeExpr)                      // *T
    | ArrayOf(elem: TypeExpr)                // []T and [n]T
    | MapOf(key: TypeExpr, value: TypeExpr)  // map[K]V
    | StructLit                              // struct{ ... }
    | OtherExpr(kind: string)                // interface, func, chan, ...

  /** What the type checker says an identifier denotes. */
  datatype Resolution =
    | Invalid                        // from a package that was not loaded
    | Basic                          // int, string, ...
    | Named(pkg: PkgId, name: string)
    | OtherType                      // neither basic nor named: Go's type assertion panics

  /** A marker value attached to a type or field, in the order the marker map is iterated. */
  datatype MarkerValue =
    | GaugeValue(gauge: GaugeMarkers.GaugeMarker)
    | StateSetValue(stateSet: StateSetMarkers.StateSetMarker)
    | InfoValue(info: InfoMarkers.InfoMarker)
    | ResourceLevel(rm: ResourceMarker)
    | GvkMarker                      // the marker that makes a type a tracked kind
    | OtherMarker(name: string)

  /** A struct field: its `json` tag (`None` when absent), markers and type. */
  datatype Field = Field(jsonTag: Option<string>, markers: seq<MarkerValue>, typ: TypeExpr)

  datatype TypeInfo = TypeInfo(markers: seq<MarkerValue>, fields: seq<Field>)

  /** What the walk reads: the loaded types, the type checker, each
      package's imports by path, the JSONPath library and the keys of
      `FlattenedMetrics`. */
  datatype Universe = Universe(
    types: map<TypeIdent, TypeInfo>,
    typeOf: (PkgId, string) -> Resolution,
    imports: PkgId -> map<string, PkgId>,
    lib: Library,
    flattened: set<TypeIdent>)

  // ---------------------------------------------------------------- json tags

  /** `pieces` joined with commas. */
  function Join(pieces: seq<string>): string
    requires |pieces| >= 1
  {
    if |pieces| == 1 then pieces[0] else pieces[0] + "," + Join(pieces[1..])
  }

  /** `strings.Split(s, ",")`. */
  function Split(s: string): (pieces: seq<string>)
    ensures |pieces| >= 1
    ensures forall i :: 0 <= i < |pieces| ==> ',' !in pieces[i]
    ensures Join(pieces) == s
  {
    if |s| == 0 then [""]
    else
      var rest := Split(s[1..]);
      if s[0] == ',' then
        assert s == "," + s[1..];
        [""] + rest
      else
        var pieces := [[s[0]] + rest[0]] + rest[1..];
        assert pieces[1..] == rest[1..];
        assert s == [s[0]] + s[1..];
        pieces
  }

  /** A field is skipped when its tag splits into the single piece `-`,
      which happens for the tag `-` and no other. */
  lemma {:induction false} SkippedIffDash(tag: string)
    ensures (|Split(tag)| == 1 && Split(tag)[0] == "-") <==> tag == "-"
  {
    if tag == "-" {
      assert Split(tag[1..]) == [""];
    }
  }

  /** The tag `-,` names a field `-`, which is kept. */
  lemma DashCommaIsKept()
    ensures Split("-,") == ["-", ""]
  {
    assert "-,"[1..] == ",";
    assert ","[1..] == "";
    assert Split("") == [""];
    assert Split(",") == ["", ""];
    assert Split("-,") == [['-'] + Split(",")[0]] + Split(",")[1..];
    assert ['-'] + "" == "-";
  }

  // ---------------------------------------------------------------- generators

  /** `prependPathOnGenerator`: puts `prefix` in front of the path of a
      Gauge, StateSet or Info and changes nothing else. */
  function PrependPath(g: Generator, prefix: string): (r: Generator)
    ensures r.name == g.name && r.help == g.help
    ensures !Typed(g) ==> r == g
    ensures Typed(g) ==> Typed(r) && r.each.meta.path == [prefix] + g.each.meta.path &&
                         r.each.meta.labelsFromPath == g.each.meta.labelsFromPath &&
                         r.each.(meta := g.each.meta) == g.each
  {
    match g.each
    case Gauge(meta, nilIsZero, labelFromKey, valueFrom) =>
      g.(each := Gauge(meta.(path := [prefix] + meta.path), nilIsZero, labelFromKey, valueFrom))
    case StateSet(meta, list, labelName, valueFrom) =>
      g.(each := StateSet(meta.(path := [prefix] + meta.path), list, labelName, valueFrom))
    case Info(meta, labelFromKey) =>
      g.(each := Info(meta.(path := [prefix] + meta.path), labelFromKey))
    case Untyped(_) => g
  }

  function PrependAll(gs: seq<Generator>, prefix: string): (r: seq<Generator>)
    ensures |r| == |gs|
    ensures forall i :: 0 <= i < |gs| ==> r[i] == PrependPath(gs[i], prefix)
  {
    seq(|gs|, i requires 0 <= i < |gs| => PrependPath(gs[i], prefix))
  }

  /** The outcome of steps taken in order: the first failure among them,
      or else all their generators, concatenated in order. */
  function Sequence(os: seq<Outcome<seq<Generator>>>): (r: Outcome<seq<Generator>>)
    ensures r.Done? <==> forall i :: 0 <= i < |os| ==> os[i].Done?
    ensures !r.Done? ==> exists i :: 0 <= i < |os| && os[i] == r && forall j :: 0 <= j < i ==> os[j].Done?
  {
    if |os| == 0 then Done([])
    else if !os[0].Done? then os[0]
    else
      var rest := Sequence(os[1..]);
      if !rest.Done? then
        var i :| 0 <= i < |os[1..]| && os[1..][i] == rest && forall j :: 0 <= j < i ==> os[1..][j].Done?;
        assert os[i + 1] == rest && forall j :: 1 <= j < i + 1 ==> os[j] == os[1..][j - 1];
        rest
      else Done(os[0].value + rest.value)
  }

  /** One more step at the end: it runs only if every earlier one succeeded. */
  lemma {:induction false} SequenceSnoc(os: seq<Outcome<seq<Generator>>>, o: Outcome<seq<Generator>>)
    ensures Sequence(os + [o]) ==
      if !Sequence(os).Done? then Sequence(os)
      else if !o.Done? then o
      else Done(Sequence(os).value + o.value)
  {
    if |os| > 0 {
      assert (os + [o])[0] == os[0];
      assert (os + [o])[1..] == os[1..] + [o];
      SequenceSnoc(os[1..], o);
      if os[0].Done? && Sequence(os[1..]).Done? && o.Done? {
        var a, b, c := os[0].value, Sequence(os[1..]).value, o.value;
        assert Sequence(os + [o]) == Done(a + (b + c));
        assert a + (b + c) == (a + b) + c;
      }
    } else {
      assert [o][1..] == [] && os + [o] == [o];
      if o.Done? {
        assert o.value + [] == [] + o.value;
      }
    }
  }

  /** One more step at the front: the rest runs only if it succeeded. */
  lemma SequenceCons(o: Outcome<seq<Generator>>, os: seq<Outcome<seq<Generator>>>)
    ensures Sequence([o] + os) ==
      if !o.Done? then o
      else if !Sequence(os).Done? then Sequence(os)
      else Done(o.value + Sequence(os).value)
  {
    assert ([o] + os)[0] == o && ([o] + os)[1..] == os;
  }

  /** The generators one marker value contributes: those of its builder for
      a metric marker, none for any other marker. */
  function GeneratorOf(lib: Library, mv: MarkerValue, basePath: seq<string>): (r: Outcome<seq<Generator>>)
    ensures !r.Diverges?
    ensures mv.GaugeValue? ==>
      var built := GaugeMarkers.ToGenerator(mv.gauge, lib, basePath);
      (r.Done? <==> built.Done?) && (r.Done? ==> r.value == [built.value])
    ensures mv.StateSetValue? ==>
      var built := StateSetMarkers.ToGenerator(mv.stateSet, lib, basePath);
      (r.Done? <==> built.Done?) && (r.Done? ==> r.value == [built.value])
    ensures mv.InfoValue? ==>
      var built := InfoMarkers.ToGenerator(mv.info, lib, basePath);
      (r.Done? <==> built.Done?) && (r.Done? ==> r.value == [built.value])
    ensures !(mv.GaugeValue? || mv.StateSetValue? || mv.InfoValue?) ==> r == Done([])
    ensures r.Done? ==> forall g :: g in r.value ==> Typed(g) && basePath <= g.each.meta.path
  {
    match mv
    case GaugeValue(m) =>
      var g :- GaugeMarkers.ToGenerator(m, lib, basePath);
      Done([g])
    case StateSetValue(m) =>
      var g :- StateSetMarkers.ToGenerator(m, lib, basePath);
      Done([g])
    case InfoValue(m) =>
      var g :- InfoMarkers.ToGenerator(m, lib, basePath);
      Done([g])
    case _ => Done([])
  }

  /** `generatorsFromMarkers`: the generators of the metric markers, in marker order. */
  function MarkerGenerators(lib: Library, ms: seq<MarkerValue>, basePath: seq<string>): (r: Outcome<seq<Generator>>)
    ensures !r.Diverges?
    ensures r.Done? ==> forall g :: g in r.value ==> Typed(g) && basePath <= g.each.meta.path
  {
    if |ms| == 0 then Done([])
    else
      var before :- MarkerGenerators(lib, ms[..|ms| - 1], basePath);
      var last :- GeneratorOf(lib, ms[|ms| - 1], basePath);
      Done(before + last)
  }

  /** What each marker contributes, in marker order. */
  function MarkerOutcomes(lib: Library, ms: seq<MarkerValue>, basePath: seq<string>): (r: seq<Outcome<seq<Generator>>>)
    ensures |r| == |ms| && forall i :: 0 <= i < |ms| ==> r[i] == GeneratorOf(lib, ms[i], basePath)
  {
    seq(|ms|, i requires 0 <= i < |ms| => GeneratorOf(lib, ms[i], basePath))
  }

  /** The markers' generators are each marker's builder result, in marker
      order; the first builder that fails makes the whole fail. */
  lemma {:induction false} MarkerGeneratorsInOrder(lib: Library, ms: seq<MarkerValue>, basePath: seq<string>)
    ensures MarkerGenerators(lib, ms, basePath) == Sequence(MarkerOutcomes(lib, ms, basePath))
  {
    if |ms| > 0 {
      var front := ms[..|ms| - 1];
      MarkerGeneratorsInOrder(lib, front, basePath);
      assert MarkerOutcomes(lib, ms, basePath) ==
             MarkerOutcomes(lib, front, basePath) + [GeneratorOf(lib, ms[|ms| - 1], basePath)];
      SequenceSnoc(MarkerOutcomes(lib, front, basePath), GeneratorOf(lib, ms[|ms| - 1], basePath));
    }
  }

  /** Failure of a prefix of the markers is the failure of all of them. */
  lemma {:induction false} MarkerGeneratorsFailureSticks(lib: Library, ms: seq<MarkerValue>, basePath: seq<string>, i: nat)
    requires i <= |ms| && MarkerGenerators(lib, ms[..i], basePath).Fatal?
    ensures MarkerGenerators(lib, ms, basePath).Fatal?
    decreases |ms| - i
  {
    if i < |ms| {
      assert ms[..i + 1][..i] == ms[..i];
      MarkerGeneratorsFailureSticks(lib, ms, basePath, i + 1);
    } else {
      assert ms[..i] == ms;
    }
  }

  // ---------------------------------------------------------------- the walk

  /** `NeedMetricsGeneratorFor`: a type already flattened gives nothing, a
      type with no info is fatal; otherwise the type-level generators come
      first, then the fields' in declaration order. `fuel` bounds the
      recursion, which the source does not bound. */
  function TypeGenerators(u: Universe, t: TypeIdent, fuel: nat): (r: Outcome<seq<Generator>>)
    ensures t in u.flattened ==> r == Done([])
    ensures t !in u.flattened && t !in u.types ==> r == Fatal
    ensures r.Done? && t !in u.flattened ==>
      MarkerGenerators(u.lib, u.types[t].markers, []).Done? &&
      MarkerGenerators(u.lib, u.types[t].markers, []).value <= r.value
    ensures r.Done? ==> forall g :: g in r.value ==> Typed(g)
    decreases fuel, 0
  {
    if t in u.flattened then Done([])
    else if t !in u.types then Fatal
    else if fuel == 0 then Diverges
    else
      var own :- MarkerGenerators(u.lib, u.types[t].markers, []);
      var nested :- FieldsGenerators(u, t.pkg, u.types[t].fields, fuel - 1);
      Done(own + nested)
  }

  /** The generators of a list of fields, in declaration order. */
  function FieldsGenerators(u: Universe, pkg: PkgId, fields: seq<Field>, fuel: nat): (r: Outcome<seq<Generator>>)
    ensures r.Done? ==> forall g :: g in r.value ==> Typed(g)
    decreases fuel, 5, |fields|
  {
    if |fields| == 0 then Done([])
    else
      var before :- FieldsGenerators(u, pkg, fields[..|fields| - 1], fuel);
      var last :- FieldGenerators(u, pkg, fields[|fields| - 1], fuel);
      Done(before + last)
  }

  /** One field: nothing without a json tag or with the tag `-`; otherwise
      the field's own markers with base path [name], then the generators of
      its type with `name` put in front of each path. */
  function FieldGenerators(u: Universe, pkg: PkgId, f: Field, fuel: nat): (r: Outcome<seq<Generator>>)
    ensures f.jsonTag.None? || f.jsonTag == Some("-") ==> r == Done([])
    ensures f.jsonTag.Some? && f.jsonTag != Some("-") ==>
      var name := Split(f.jsonTag.value)[0];
      var own := MarkerGenerators(u.lib, f.markers, [name]);
      var nested := GeneratorsFor(u, pkg, f.typ, fuel);
      && (r.Done? <==> own.Done? && nested.Done?)
      && (r.Done? ==> r.value == own.value + PrependAll(nested.value, name))
      && (!own.Done? ==> r == own)
      && (own.Done? && !nested.Done? ==> r == nested)
    ensures r.Done? && f.jsonTag.Some? ==>
      forall g :: g in r.value ==> Typed(g) && [Split(f.jsonTag.value)[0]] <= g.each.meta.path
    ensures r.Done? ==> forall g :: g in r.value ==> Typed(g)
    decreases fuel, 4
  {
    match f.jsonTag
    case None => Done([])
    case Some(tag) =>
      var opts := Split(tag);
      if |opts| == 1 && opts[0] == "-" then Done([])
      else
        SkippedIffDash(tag);
        var own :- MarkerGenerators(u.lib, f.markers, [opts[0]]);
        var nested :- GeneratorsFor(u, pkg, f.typ, fuel);
        Done(own + PrependAll(nested, opts[0]))
  }

  /** `generatorsFor`: dispatch on the field's type expression. A selector
      `x.Sel` recurses on its qualifier `x`, not on `Sel`. */
  function GeneratorsFor(u: Universe, pkg: PkgId, e: TypeExpr, fuel: nat): (r: Outcome<seq<Generator>>)
    ensures e.Ident? ==> r == LocalNamedToGenerators(u, pkg, e.name, fuel)
    ensures e.Selector? || e.Star? ==> r == GeneratorsFor(u, pkg, e.x, fuel)
    ensures e.ArrayOf? || e.MapOf? ==> r == Done([])
    ensures e.StructLit? || e.OtherExpr? ==> r == Fatal
    ensures r.Done? ==> forall g :: g in r.value ==> Typed(g)
    decreases fuel, 3, e
  {
    match e
    case Ident(name) => LocalNamedToGenerators(u, pkg, name, fuel)
    case Selector(x, _) => GeneratorsFor(u, pkg, x, fuel)
    case ArrayOf(_) => Done([])
    case MapOf(_, _) => Done([])
    case Star(x) => GeneratorsFor(u, pkg, x, fuel)
    case StructLit => Fatal
    case OtherExpr(_) => Fatal
  }

  /** `localNamedToGenerators`: unresolved and basic types give nothing; a
      named type is requested with package path "" when it is declared in
      the referring package and with its own path otherwise; any other type
      fails Go's type assertion. */
  function LocalNamedToGenerators(u: Universe, pkg: PkgId, ident: string, fuel: nat): (r: Outcome<seq<Generator>>)
    ensures u.typeOf(pkg, ident).Invalid? || u.typeOf(pkg, ident).Basic? ==> r == Done([])
    ensures u.typeOf(pkg, ident).OtherType? ==> r == Fatal
    ensures u.typeOf(pkg, ident).Named? ==>
      var named := u.typeOf(pkg, ident);
      r == RequestGenerator(u, pkg, if named.pkg == pkg then "" else named.pkg, named.name, fuel)
    ensures r.Done? ==> forall g :: g in r.value ==> Typed(g)
    decreases fuel, 2
  {
    match u.typeOf(pkg, ident)
    case Invalid => Done([])
    case Basic => Done([])
    case OtherType => Fatal
    case Named(p, name) =>
      var pkgPath := if p == pkg then "" else p;
      RequestGenerator(u, pkg, pkgPath, name, fuel)
  }

  /** `requestGenerator`: an empty path means the referring package; any
      other path is looked up among its imports (a missing one yields a nil
      package, whose type info is missing, which is fatal). */
  function RequestGenerator(u: Universe, pkg: PkgId, pkgPath: string, typeName: string, fuel: nat)
    : (r: Outcome<seq<Generator>>)
    ensures pkgPath == "" ==> r == TypeGenerators(u, TypeIdent(pkg, typeName), fuel)
    ensures pkgPath != "" && pkgPath in u.imports(pkg) ==>
      r == TypeGenerators(u, TypeIdent(u.imports(pkg)[pkgPath], typeName), fuel)
    ensures pkgPath != "" && pkgPath !in u.imports(pkg) ==> r == Fatal
    ensures r.Done? ==> forall g :: g in r.value ==> Typed(g)
    decreases fuel, 1
  {
    if pkgPath == "" then TypeGenerators(u, TypeIdent(pkg, typeName), fuel)
    else if pkgPath in u.imports(pkg) then TypeGenerators(u, TypeIdent(u.imports(pkg)[pkgPath], typeName), fuel)
    else Fatal
  }

  /** `TypeGenerators` of a type with info and fuel left, spelled out. */
  lemma TypeGeneratorsUnfold(u: Universe, t: TypeIdent, fuel: nat)
    requires t !in u.flattened && t in u.types && fuel > 0
    ensures MarkerGenerators(u.lib, u.types[t].markers, []).Fatal? ==> TypeGenerators(u, t, fuel) == Fatal
    ensures MarkerGenerators(u.lib, u.types[t].markers, []).Done? ==>
      var nested := FieldsGenerators(u, t.pkg, u.types[t].fields, fuel - 1);
      TypeGenerators(u, t, fuel) ==
        if nested.Done? then Done(MarkerGenerators(u.lib, u.types[t].markers, []).value + nested.value) else nested
  {
  }

  /** What each field contributes, in declaration order. */
  function FieldOutcomes(u: Universe, pkg: PkgId, fields: seq<Field>, fuel: nat): (r: seq<Outcome<seq<Generator>>>)
    ensures |r| == |fields| && forall i :: 0 <= i < |fields| ==> r[i] == FieldGenerators(u, pkg, fields[i], fuel)
  {
    seq(|fields|, i requires 0 <= i < |fields| => FieldGenerators(u, pkg, fields[i], fuel))
  }

  /** The fields' generators are each field's, in declaration order; the
      first field that fails makes the whole fail. */
  lemma {:induction false} FieldsGeneratorsInOrder(u: Universe, pkg: PkgId, fields: seq<Field>, fuel: nat)
    ensures FieldsGenerators(u, pkg, fields, fuel) == Sequence(FieldOutcomes(u, pkg, fields, fuel))
  {
    if |fields| > 0 {
      var front := fields[..|fields| - 1];
      FieldsGeneratorsInOrder(u, pkg, front, fuel);
      assert FieldOutcomes(u, pkg, fields, fuel) ==
             FieldOutcomes(u, pkg, front, fuel) + [FieldGenerators(u, pkg, fields[|fields| - 1], fuel)];
      SequenceSnoc(FieldOutcomes(u, pkg, front, fuel), FieldGenerators(u, pkg, fields[|fields| - 1], fuel));
    }
  }

  /** The whole walk of a type with info: the type's own marker generators,
      then each field's in declaration order, the first failure winning. */
  lemma TypeGeneratorsInOrder(u: Universe, t: TypeIdent, fuel: nat)
    requires t !in u.flattened && t in u.types && fuel > 0
    ensures TypeGenerators(u, t, fuel) ==
      Sequence([MarkerGenerators(u.lib, u.types[t].markers, [])] + FieldOutcomes(u, t.pkg, u.types[t].fields, fuel - 1))
  {
    var own := MarkerGenerators(u.lib, u.types[t].markers, []);
    var fields := FieldOutcomes(u, t.pkg, u.types[t].fields, fuel - 1);
    var nested := FieldsGenerators(u, t.pkg, u.types[t].fields, fuel - 1);
    FieldsGeneratorsInOrder(u, t.pkg, u.types[t].fields, fuel - 1);
    assert nested == Sequence(fields);
    TypeGeneratorsUnfold(u, t, fuel);
    SequenceCons(own, fields);
  }

  /** A tag without commas is the field's name. */
  lemma {:induction false} SplitNoComma(s: string)
    requires ',' !in s
    ensures Split(s) == [s]
  {
    if |s| > 0 {
      SplitNoComma(s[1..]);
      assert s == [s[0]] + s[1..];
    }
  }

  /** A gauge on field `inner` of a type reached through field `outer` of
      the same package gets the path `[outer, inner]`, its own path after. */
  lemma NestedFieldPath(u: Universe, t: TypeIdent, s: TypeIdent, outer: string, inner: string,
                        x: string, y: string, m: GaugeMarkers.GaugeMarker, fuel: nat)
    requires t !in u.flattened && s !in u.flattened && s.pkg == t.pkg
    requires ',' !in outer && outer != "-" && ',' !in inner && inner != "-"
    requires t in u.types && u.types[t] == TypeInfo([], [Field(Some(outer), [], Ident(x))])
    requires s in u.types && u.types[s] == TypeInfo([], [Field(Some(inner), [GaugeValue(m)], Ident(y))])
    requires u.typeOf(t.pkg, x) == Named(t.pkg, s.name) && u.typeOf(t.pkg, y).Basic?
    requires GaugeMarkers.ToGenerator(m, u.lib, [inner]).Done?
    requires fuel >= 2
    ensures var g := GaugeMarkers.ToGenerator(m, u.lib, [inner]).value;
            && TypeGenerators(u, t, fuel) == Done([PrependPath(g, outer)])
            && PrependPath(g, outer).each.meta.path == [outer] + g.each.meta.path
            && PrependPath(g, outer).each.meta.path[..2] == [outer, inner]
  {
    SplitNoComma(outer);
    SplitNoComma(inner);
    var g := GaugeMarkers.ToGenerator(m, u.lib, [inner]).value;
    assert MarkerGenerators(u.lib, [], [inner]) == Done([]);
    assert MarkerGenerators(u.lib, [], [outer]) == Done([]);
    assert MarkerGenerators(u.lib, [], []) == Done([]);
    // the inner type
    var fs := Field(Some(inner), [GaugeValue(m)], Ident(y));
    assert [GaugeValue(m)][..0] == [];
    assert GeneratorOf(u.lib, GaugeValue(m), [inner]) == Done([g]);
    assert [] + [g] == [g] && [g] + [] == [g];
    assert MarkerGenerators(u.lib, [GaugeValue(m)], [inner]) == Done([g]);
    assert GeneratorsFor(u, t.pkg, Ident(y), fuel - 2) == Done([]);
    assert PrependAll([], inner) == [];
    assert Split(fs.jsonTag.value)[0] == inner && fs.jsonTag != Some("-");
    assert FieldGenerators(u, t.pkg, fs, fuel - 2) == Done([g] + []);
    assert [fs][..0] == [];
    assert FieldsGenerators(u, t.pkg, [fs], fuel - 2) == Done([] + [g]);
    assert TypeGenerators(u, s, fuel - 1) == Done([] + [g]);
    // the outer type
    assert TypeIdent(t.pkg, s.name) == s;
    assert GeneratorsFor(u, t.pkg, Ident(x), fuel - 1) == Done([g]);
    assert PrependAll([g], outer) == [PrependPath(g, outer)];
    var ft := Field(Some(outer), [], Ident(x));
    assert Split(ft.jsonTag.value)[0] == outer && ft.jsonTag != Some("-");
    assert [] + [PrependPath(g, outer)] == [PrependPath(g, outer)];
    assert FieldGenerators(u, t.pkg, ft, fuel - 1) == Done([PrependPath(g, outer)]);
    assert [ft][..0] == [];
    assert FieldsGenerators(u, t.pkg, [ft], fuel - 1) == Done([] + [PrependPath(g, outer)]);
    assert TypeGenerators(u, t, fuel) == Done([] + [PrependPath(g, outer)]);
    assert [inner] <= g.each.meta.path;
  }

  /** One more field: its generators are appended, or its failure is the result. */
  lemma FieldsStep(u: Universe, pkg: PkgId, fields: seq<Field>, fuel: nat, i: nat)
    requires i < |fields| && FieldsGenerators(u, pkg, fields[..i], fuel).Done?
    ensures FieldGenerators(u, pkg, fields[i], fuel).Done? ==>
      FieldsGenerators(u, pkg, fields[..i + 1], fuel) ==
      Done(FieldsGenerators(u, pkg, fields[..i], fuel).value + FieldGenerators(u, pkg, fields[i], fuel).value)
    ensures !FieldGenerators(u, pkg, fields[i], fuel).Done? ==>
      FieldsGenerators(u, pkg, fields[..i + 1], fuel) == FieldGenerators(u, pkg, fields[i], fuel)
  {
    assert fields[..i + 1][..i] == fields[..i];
  }

  /** Failure of a prefix of the fields is the failure of all of them. */
  lemma {:induction false} FieldsFailureSticks(u: Universe, pkg: PkgId, fields: seq<Field>, fuel: nat, i: nat)
    requires i <= |fields| && FieldsGenerators(u, pkg, fields[..i], fuel).IsFailure()
    ensures FieldsGenerators(u, pkg, fields, fuel) == FieldsGenerators(u, pkg, fields[..i], fuel)
    decreases |fields| - i
  {
    if i < |fields| {
      assert fields[..i + 1][..i] == fields[..i];
      FieldsFailureSticks(u, pkg, fields, fuel, i + 1);
    } else {
      assert fields[..i] == fields;
    }
  }

  // ---------------------------------------------------------------- fuel

  /** More fuel changes nothing once the walk did not run out of it. */
  lemma {:induction false} TypeGeneratorsMoreFuel(u: Universe, t: TypeIdent, fuel: nat)
    requires !TypeGenerators(u, t, fuel).Diverges?
    ensures TypeGenerators(u, t, fuel + 1) == TypeGenerators(u, t, fuel)
    decreases fuel, 0
  {
    if t !in u.flattened && t in u.types && MarkerGenerators(u.lib, u.types[t].markers, []).Done? {
      FieldsMoreFuel(u, t.pkg, u.types[t].fields, fuel - 1);
    }
  }

  lemma {:induction false} FieldsMoreFuel(u: Universe, pkg: PkgId, fields: seq<Field>, fuel: nat)
    requires !FieldsGenerators(u, pkg, fields, fuel).Diverges?
    ensures FieldsGenerators(u, pkg, fields, fuel + 1) == FieldsGenerators(u, pkg, fields, fuel)
    decreases fuel, 5, |fields|
  {
    if |fields| > 0 {
      var front := fields[..|fields| - 1];
      FieldsMoreFuel(u, pkg, front, fuel);
      if FieldsGenerators(u, pkg, front, fuel).Done? {
        FieldMoreFuel(u, pkg, fields[|fields| - 1], fuel);
      }
    }
  }

  lemma {:induction false} FieldMoreFuel(u: Universe, pkg: PkgId, f: Field, fuel: nat)
    requires !FieldGenerators(u, pkg, f, fuel).Diverges?
    ensures FieldGenerators(u, pkg, f, fuel + 1) == FieldGenerators(u, pkg, f, fuel)
    decreases fuel, 4
  {
    if f.jsonTag.Some? && f.jsonTag != Some("-") &&
       MarkerGenerators(u.lib, f.markers, [Split(f.jsonTag.value)[0]]).Done? {
      GeneratorsForMoreFuel(u, pkg, f.typ, fuel);
    }
  }

  lemma {:induction false} GeneratorsForMoreFuel(u: Universe, pkg: PkgId, e: TypeExpr, fuel: nat)
    requires !GeneratorsFor(u, pkg, e, fuel).Diverges?
    ensures GeneratorsFor(u, pkg, e, fuel + 1) == GeneratorsFor(u, pkg, e, fuel)
    decreases fuel, 3, e
  {
    match e
    case Ident(name) => LocalNamedMoreFuel(u, pkg, name, fuel);
    case Selector(x, _) => GeneratorsForMoreFuel(u, pkg, x, fuel);
    case Star(x) => GeneratorsForMoreFuel(u, pkg, x, fuel);
    case _ =>
  }

  lemma {:induction false} LocalNamedMoreFuel(u: Universe, pkg: PkgId, ident: string, fuel: nat)
    requires !LocalNamedToGenerators(u, pkg, ident, fuel).Diverges?
    ensures LocalNamedToGenerators(u, pkg, ident, fuel + 1) == LocalNamedToGenerators(u, pkg, ident, fuel)
    decreases fuel, 2
  {
    if u.typeOf(pkg, ident).Named? {
      var named := u.typeOf(pkg, ident);
      RequestMoreFuel(u, pkg, if named.pkg == pkg then "" else named.pkg, named.name, fuel);
    }
  }

  lemma {:induction false} RequestMoreFuel(u: Universe, pkg: PkgId, pkgPath: string, typeName: string, fuel: nat)
    requires !RequestGenerator(u, pkg, pkgPath, typeName, fuel).Diverges?
    ensures RequestGenerator(u, pkg, pkgPath, typeName, fuel + 1) == RequestGenerator(u, pkg, pkgPath, typeName, fuel)
    decreases fuel, 1
  {
    if pkgPath == "" {
      TypeGeneratorsMoreFuel(u, TypeIdent(pkg, typeName), fuel);
    } else if pkgPath in u.imports(pkg) {
      TypeGeneratorsMoreFuel(u, TypeIdent(u.imports(pkg)[pkgPath], typeName), fuel);
    }
  }

  /** A walk that finished, successfully or fatally, finishes the same way
      with any larger fuel: `Diverges` is the only outcome fuel can change. */
  lemma {:induction false} TypeGeneratorsFuelMonotone(u: Universe, t: TypeIdent, fuel: nat, more: nat)
    requires fuel <= more && !TypeGenerators(u, t, fuel).Diverges?
    ensures TypeGenerators(u, t, more) == TypeGenerators(u, t, fuel)
    decreases more - fuel
  {
    if fuel < more {
      TypeGeneratorsMoreFuel(u, t, fuel);
      TypeGeneratorsFuelMonotone(u, t, fuel + 1, more);
    }
  }

  /** A type with a field of its own type (`T` or `*T`)
      is walked without end: the outcome is `Diverges` whatever the fuel,
      because `FlattenedMetrics` is never written. */
  lemma {:induction false} SelfReferenceDiverges(
    u: Universe, t: TypeIdent, tag: string, ms: seq<MarkerValue>, x: string, typ: TypeExpr, fuel: nat)
    requires t !in u.flattened && t in u.types
    requires MarkerGenerators(u.lib, u.types[t].markers, []).Done?
    requires u.types[t].fields == [Field(Some(tag), ms, typ)]
    requires typ == Ident(x) || typ == Star(Ident(x))
    requires tag != "-" && MarkerGenerators(u.lib, ms, [Split(tag)[0]]).Done?
    requires u.typeOf(t.pkg, x) == Named(t.pkg, t.name)
    ensures TypeGenerators(u, t, fuel) == Diverges
  {
    if fuel > 0 {
      SelfReferenceDiverges(u, t, tag, ms, x, typ, fuel - 1);
      assert TypeIdent(t.pkg, t.name) == t;
      assert GeneratorsFor(u, t.pkg, Ident(x), fuel - 1) == Diverges;
      assert GeneratorsFor(u, t.pkg, typ, fuel - 1) == Diverges;
      assert FieldGenerators(u, t.pkg, Field(Some(tag), ms, typ), fuel - 1) == Diverges;
      assert u.types[t].fields[..0] == [];
      assert FieldsGenerators(u, t.pkg, u.types[t].fields, fuel - 1) == Diverges;
    }
  }

  // ---------------------------------------------------------------- loading packages

  /** A root package as the loader hands it over: its import path, the
      group version its package markers declare (none without a group
      name), and its annotated types. */
  datatype Package = Package(id: PkgId, groupVersion: Option<GroupVersion>, types: map<TypeIdent, TypeInfo>)

  /** What the parser has indexed so far: the types, the group versions,
      the order in which ranging over the group versions visits packages,
      and the packages already indexed. */
  datatype Index = Index(
    types: map<TypeIdent, TypeInfo>,
    groupVersions: map<PkgId, GroupVersion>,
    order: seq<PkgId>,
    loaded: set<PkgId>)

  /** The order visits every package that has a group version, each once. */
  predicate IndexValid(ix: Index)
  {
    && (forall p :: p in ix.groupVersions ==> p in ix.order)
    && (forall i, j :: 0 <= i < j < |ix.order| ==> ix.order[i] != ix.order[j])
  }

  /** `NeedPackage`: a package is indexed once. Its types are added, and so
      is its group version if it declares one; a package with a group
      version that the order does not visit yet is visited last. */
  function Load(ix: Index, pkg: Package): (r: Index)
    ensures pkg.id in ix.loaded ==> r == ix
    ensures r.loaded == ix.loaded + {pkg.id}
    ensures pkg.id !in ix.loaded ==>
      && (forall t :: t in r.types <==> t in ix.types || t in pkg.types)
      && (forall t :: t in pkg.types ==> r.types[t] == pkg.types[t])
      && (forall t :: t in ix.types && t !in pkg.types ==> r.types[t] == ix.types[t])
      && (forall p :: p in r.groupVersions <==> p in ix.groupVersions || (p == pkg.id && pkg.groupVersion.Some?))
      && (pkg.groupVersion.Some? ==> r.groupVersions[pkg.id] == pkg.groupVersion.value)
      && (forall p :: p in ix.groupVersions && p != pkg.id ==> r.groupVersions[p] == ix.groupVersions[p])
    ensures ix.order <= r.order
    ensures IndexValid(ix) ==> IndexValid(r)
  {
    if pkg.id in ix.loaded then ix
    else
      Index(
        ix.types + pkg.types,
        if pkg.groupVersion.Some? then ix.groupVersions[pkg.id := pkg.groupVersion.value] else ix.groupVersions,
        if pkg.groupVersion.Some? && pkg.id !in ix.order then ix.order + [pkg.id] else ix.order,
        ix.loaded + {pkg.id})
  }

  // ---------------------------------------------------------------- resources

  /** The indexed packages of `group`, in iteration order. */
  function Candidates(order: seq<PkgId>, gvs: map<PkgId, GroupVersion>, group: string): (r: seq<PkgId>)
    ensures forall p :: p in r <==> p in order && p in gvs && gvs[p].group == group
  {
    if |order| == 0 then []
    else
      var before := Candidates(order[..|order| - 1], gvs, group);
      var p := order[|order| - 1];
      assert order == order[..|order| - 1] + [p];
      if p in gvs && gvs[p].group == group then before + [p] else before
  }

  /** The package declares the kind, with the marker that makes it a tracked kind. */
  predicate Marked(u: Universe, kind: string, p: PkgId)
  {
    TypeIdent(p, kind) in u.types && GvkMarker in u.types[TypeIdent(p, kind)].markers
  }

  /** What the first pass leaves in the resource: its metrics and its version. */
  datatype Versioned = Versioned(metrics: seq<Generator>, version: string)

  /** The first loop of `NeedResourceFor`: each marked package sets the
      metrics (sorted by name) and the version; setting a version a second
      time is fatal. */
  function FirstPass(u: Universe, gvs: map<PkgId, GroupVersion>, kind: string, pkgs: seq<PkgId>, fuel: nat)
    : (r: Outcome<Versioned>)
    requires forall p :: p in pkgs ==> p in gvs
    ensures r.Done? ==> SortedBy(r.value.metrics, NameKey)
  {
    if |pkgs| == 0 then Done(Versioned([], ""))
    else
      var front := pkgs[..|pkgs| - 1];
      var p := pkgs[|pkgs| - 1];
      var st :- FirstPass(u, gvs, kind, front, fuel);
      if !Marked(u, kind, p) then Done(st)
      else
        var gens :- TypeGenerators(u, TypeIdent(p, kind), fuel);
        if st.version != "" then Fatal
        else Done(Versioned(SortBy(gens, NameKey), gvs[p].version))
  }

  /** Facts about the versions the first pass saw: every marked package
      has an empty version or the final one, and of two marked packages
      the earlier has an empty version, so at most one sets a version. */
  lemma {:induction false} FirstPassVersions(
    u: Universe, gvs: map<PkgId, GroupVersion>, kind: string, pkgs: seq<PkgId>, fuel: nat)
    requires forall p :: p in pkgs ==> p in gvs
    requires FirstPass(u, gvs, kind, pkgs, fuel).Done?
    ensures forall i :: 0 <= i < |pkgs| && Marked(u, kind, pkgs[i]) ==>
              gvs[pkgs[i]].version == "" || gvs[pkgs[i]].version == FirstPass(u, gvs, kind, pkgs, fuel).value.version
    ensures forall i, j :: 0 <= i < j < |pkgs| && Marked(u, kind, pkgs[i]) && Marked(u, kind, pkgs[j]) ==>
              gvs[pkgs[i]].version == ""
  {
    if |pkgs| > 0 {
      var last := |pkgs| - 1;
      var front := pkgs[..last];
      var p := pkgs[last];
      var st := FirstPass(u, gvs, kind, front, fuel).value;
      var final := FirstPass(u, gvs, kind, pkgs, fuel).value;
      FirstPassVersions(u, gvs, kind, front, fuel);
      if Marked(u, kind, p) {
        assert st.version == "" && final.version == gvs[p].version;
      } else {
        assert final == st;
      }
      forall i | 0 <= i < last && Marked(u, kind, pkgs[i])
        ensures gvs[pkgs[i]].version == "" || gvs[pkgs[i]].version == final.version
        ensures Marked(u, kind, p) ==> gvs[pkgs[i]].version == ""
      {
        assert front[i] == pkgs[i];
      }
      forall i, j | 0 <= i < j < |pkgs| && Marked(u, kind, pkgs[i]) && Marked(u, kind, pkgs[j])
        ensures gvs[pkgs[i]].version == ""
      {
        if j < last {
          assert front[i] == pkgs[i] && front[j] == pkgs[j];
        }
      }
    }
  }

  /** A non-empty version comes from a marked package of the list. */
  lemma {:induction false} FirstPassVersionSource(
    u: Universe, gvs: map<PkgId, GroupVersion>, kind: string, pkgs: seq<PkgId>, fuel: nat)
    requires forall p :: p in pkgs ==> p in gvs
    requires FirstPass(u, gvs, kind, pkgs, fuel).Done? && FirstPass(u, gvs, kind, pkgs, fuel).value.version != ""
    ensures exists i :: 0 <= i < |pkgs| && Marked(u, kind, pkgs[i]) &&
              gvs[pkgs[i]].version == FirstPass(u, gvs, kind, pkgs, fuel).value.version
  {
    var last := |pkgs| - 1;
    if !Marked(u, kind, pkgs[last]) {
      var front := pkgs[..last];
      FirstPassVersionSource(u, gvs, kind, front, fuel);
      var i :| 0 <= i < |front| && Marked(u, kind, front[i]) &&
               gvs[front[i]].version == FirstPass(u, gvs, kind, front, fuel).value.version;
      assert front[i] == pkgs[i];
    }
  }

  /** Non-empty metrics are, up to order, the generators of a marked package's type. */
  lemma {:induction false} FirstPassMetricsSource(
    u: Universe, gvs: map<PkgId, GroupVersion>, kind: string, pkgs: seq<PkgId>, fuel: nat)
    requires forall p :: p in pkgs ==> p in gvs
    requires FirstPass(u, gvs, kind, pkgs, fuel).Done? && FirstPass(u, gvs, kind, pkgs, fuel).value.metrics != []
    ensures exists i :: 0 <= i < |pkgs| && Marked(u, kind, pkgs[i]) &&
              TypeGenerators(u, TypeIdent(pkgs[i], kind), fuel).Done? &&
              multiset(FirstPass(u, gvs, kind, pkgs, fuel).value.metrics) ==
              multiset(TypeGenerators(u, TypeIdent(pkgs[i], kind), fuel).value)
  {
    var last := |pkgs| - 1;
    if !Marked(u, kind, pkgs[last]) {
      var front := pkgs[..last];
      FirstPassMetricsSource(u, gvs, kind, front, fuel);
      var i :| 0 <= i < |front| && Marked(u, kind, front[i]) &&
               TypeGenerators(u, TypeIdent(front[i], kind), fuel).Done? &&
               multiset(FirstPass(u, gvs, kind, front, fuel).value.metrics) ==
               multiset(TypeGenerators(u, TypeIdent(front[i], kind), fuel).value);
      assert front[i] == pkgs[i];
    }
  }

  /** Packages without the kind, or without the kind marker, leave the resource empty. */
  lemma {:induction false} FirstPassUnmarked(
    u: Universe, gvs: map<PkgId, GroupVersion>, kind: string, pkgs: seq<PkgId>, fuel: nat)
    requires forall p :: p in pkgs ==> p in gvs
    requires forall p :: p in pkgs ==> !Marked(u, kind, p)
    ensures FirstPass(u, gvs, kind, pkgs, fuel) == Done(Versioned([], ""))
  {
    if |pkgs| > 0 {
      FirstPassUnmarked(u, gvs, kind, pkgs[..|pkgs| - 1], fuel);
    }
  }

  /** One more package in the first pass, spelled out. */
  lemma FirstPassStep(u: Universe, gvs: map<PkgId, GroupVersion>, kind: string, pkgs: seq<PkgId>, fuel: nat, i: nat)
    requires forall p :: p in pkgs ==> p in gvs
    requires i < |pkgs| && FirstPass(u, gvs, kind, pkgs[..i], fuel).Done?
    ensures var st := FirstPass(u, gvs, kind, pkgs[..i], fuel).value;
            var gens := TypeGenerators(u, TypeIdent(pkgs[i], kind), fuel);
            FirstPass(u, gvs, kind, pkgs[..i + 1], fuel) ==
              if !Marked(u, kind, pkgs[i]) then Done(st)
              else if gens.Fatal? then Fatal
              else if gens.Diverges? then Diverges
              else if st.version != "" then Fatal
              else Done(Versioned(SortBy(gens.value, NameKey), gvs[pkgs[i]].version))
  {
    assert pkgs[..i + 1][..i] == pkgs[..i];
  }

  lemma {:induction false} FirstPassFailureSticks(
    u: Universe, gvs: map<PkgId, GroupVersion>, kind: string, pkgs: seq<PkgId>, fuel: nat, i: nat)
    requires forall p :: p in pkgs ==> p in gvs
    requires i <= |pkgs| && FirstPass(u, gvs, kind, pkgs[..i], fuel).IsFailure()
    ensures FirstPass(u, gvs, kind, pkgs, fuel) == FirstPass(u, gvs, kind, pkgs[..i], fuel)
    decreases |pkgs| - i
  {
    if i < |pkgs| {
      assert pkgs[..i + 1][..i] == pkgs[..i];
      FirstPassFailureSticks(u, gvs, kind, pkgs, fuel, i + 1);
    } else {
      assert pkgs[..i] == pkgs;
    }
  }

  /** An error of a resource marker, recorded against the package (`pkg.AddError`). */
  datatype PackageError = PackageError(pkg: PkgId, error: ResourceError)

  /** The resource markers among `ms`, each paired with the package that reports its errors. */
  function ResourceMarkersIn(p: PkgId, ms: seq<MarkerValue>): seq<(PkgId, ResourceMarker)>
  {
    if |ms| == 0 then []
    else
      var before := ResourceMarkersIn(p, ms[..|ms| - 1]);
      match ms[|ms| - 1]
      case ResourceLevel(rm) => before + [(p, rm)]
      case _ => before
  }

  /** The resource markers of every package that declares the kind, with or without the kind marker. */
  function MarkersOfPackages(u: Universe, kind: string, pkgs: seq<PkgId>): seq<(PkgId, ResourceMarker)>
  {
    if |pkgs| == 0 then []
    else
      var before := MarkersOfPackages(u, kind, pkgs[..|pkgs| - 1]);
      var t := TypeIdent(pkgs[|pkgs| - 1], kind);
      if t in u.types then before + ResourceMarkersIn(t.pkg, u.types[t].markers) else before
  }

  /** The second loop of `NeedResourceFor`: every resource marker is
      applied in turn; an error is recorded and the loop goes on. */
  function ApplyAll(lib: Library, v: ResourceValue, xs: seq<(PkgId, ResourceMarker)>)
    : (r: (ResourceValue, seq<PackageError>))
    ensures r.0.gvk == v.gvk && r.0.metrics == v.metrics
  {
    if |xs| == 0 then (v, [])
    else
      var (w, errs) := ApplyAll(lib, v, xs[..|xs| - 1]);
      var (p, rm) := xs[|xs| - 1];
      var (w', e) := ApplyMarker(w, rm, lib);
      (w', if e.Some? then errs + [PackageError(p, e.value)] else errs)
  }

  /** Reference definition: the prefix of the last name-prefix marker, if any. */
  function LastPrefix(xs: seq<(PkgId, ResourceMarker)>, default: Option<string>): Option<string>
  {
    if |xs| == 0 then default
    else match xs[|xs| - 1].1
      case NamePrefix(prefix) => Some(prefix)
      case _ => LastPrefix(xs[..|xs| - 1], default)
  }

  /** The final name prefix is that of the last name-prefix marker, whatever
      errors the label markers before or after it reported. */
  lemma {:induction false} LastNamePrefixWins(lib: Library, v: ResourceValue, xs: seq<(PkgId, ResourceMarker)>)
    ensures ApplyAll(lib, v, xs).0.metricNamePrefix == LastPrefix(xs, v.metricNamePrefix)
  {
    if |xs| > 0 {
      LastNamePrefixWins(lib, v, xs[..|xs| - 1]);
    }
  }

  /** Labels are never removed, and a label whose path parses is present
      afterwards, whatever errors other markers reported. */
  lemma {:induction false} ParsedLabelIsPresent(lib: Library, v: ResourceValue, xs: seq<(PkgId, ResourceMarker)>, i: nat)
    requires i < |xs| && xs[i].1.LabelFromPath? && Parse(lib, xs[i].1.marker.jsonPath).Ok?
    ensures ApplyAll(lib, v, xs).0.labelsFromPath.Some?
    ensures xs[i].1.marker.name in ApplyAll(lib, v, xs).0.labelsFromPath.value
    decreases |xs|
  {
    var front := xs[..|xs| - 1];
    var w := ApplyAll(lib, v, front).0;
    if i < |xs| - 1 {
      ParsedLabelIsPresent(lib, v, front, i);
    }
  }

  /** One more marker applied: its error, if any, is appended. */
  lemma ApplyAllSnoc(lib: Library, v: ResourceValue, xs: seq<(PkgId, ResourceMarker)>, x: (PkgId, ResourceMarker))
    ensures var (w, errs) := ApplyAll(lib, v, xs);
            var (w', e) := ApplyMarker(w, x.1, lib);
            ApplyAll(lib, v, xs + [x]) == (w', if e.Some? then errs + [PackageError(x.0, e.value)] else errs)
  {
    assert (xs + [x])[..|xs|] == xs;
  }

  /** One more marker of a type: kept when it is a resource marker. */
  lemma ResourceMarkersInSnoc(p: PkgId, ms: seq<MarkerValue>, j: nat)
    requires j < |ms|
    ensures ResourceMarkersIn(p, ms[..j + 1]) ==
            ResourceMarkersIn(p, ms[..j]) + (if ms[j].ResourceLevel? then [(p, ms[j].rm)] else [])
  {
    assert ms[..j + 1][..j] == ms[..j];
  }

  /** One more package: the resource markers of its type, if it has one, follow. */
  lemma MarkersOfPackagesSnoc(u: Universe, kind: string, pkgs: seq<PkgId>, i: nat)
    requires i < |pkgs|
    ensures var t := TypeIdent(pkgs[i], kind);
            MarkersOfPackages(u, kind, pkgs[..i + 1]) ==
            MarkersOfPackages(u, kind, pkgs[..i]) + (if t in u.types then ResourceMarkersIn(pkgs[i], u.types[t].markers) else [])
  {
    assert pkgs[..i + 1][..i] == pkgs[..i];
  }

  /** `NeedResourceFor` on a GroupKind not yet in the table: the resource
      it stores and the errors it records, or how it aborts. */
  function BuildResource(u: Universe, gvs: map<PkgId, GroupVersion>, order: seq<PkgId>, gk: GroupKind, fuel: nat)
    : (r: Outcome<(ResourceValue, seq<PackageError>)>)
    ensures r.Done? ==> r.value.0.gvk.group == gk.group && r.value.0.gvk.kind == gk.kind
    ensures r.Done? ==> SortedBy(r.value.0.metrics, NameKey)
  {
    var pkgs := Candidates(order, gvs, gk.group);
    var st :- FirstPass(u, gvs, gk.kind, pkgs, fuel);
    var initial := ResourceValue(GroupVersionKind(gk.group, st.version, gk.kind), None, None, st.metrics);
    Done(ApplyAll(u.lib, initial, MarkersOfPackages(u, gk.kind, pkgs)))
  }

  /** The stored version is empty or that of a package of the requested
      group that carries the kind marker. */
  lemma BuiltVersionSource(u: Universe, gvs: map<PkgId, GroupVersion>, order: seq<PkgId>, gk: GroupKind, fuel: nat)
    requires BuildResource(u, gvs, order, gk, fuel).Done?
    ensures var v := BuildResource(u, gvs, order, gk, fuel).value.0.gvk.version;
            v == "" || exists p :: p in order && p in gvs && gvs[p].group == gk.group && Marked(u, gk.kind, p) && gvs[p].version == v
  {
    var pkgs := Candidates(order, gvs, gk.group);
    if FirstPass(u, gvs, gk.kind, pkgs, fuel).value.version != "" {
      FirstPassVersionSource(u, gvs, gk.kind, pkgs, fuel);
    }
  }

  // ---------------------------------------------------------------- the parser

  /** `generatorsFromMarkers`, appending in a loop. */
  method GeneratorsFromMarkers(lib: Library, ms: seq<MarkerValue>, basePath: seq<string>)
    returns (r: Outcome<seq<Generator>>)
    ensures r == MarkerGenerators(lib, ms, basePath)
  {
    var generators := [];
    var i := 0;
    while i < |ms|
      invariant 0 <= i <= |ms|
      invariant MarkerGenerators(lib, ms[..i], basePath) == Done(generators)
    {
      assert ms[..i + 1][..i] == ms[..i];
      var g := GeneratorOf(lib, ms[i], basePath);
      if !g.Done? {
        MarkerGeneratorsFailureSticks(lib, ms, basePath, i + 1);
        return Fatal;
      }
      generators := generators + g.value;
      i := i + 1;
    }
    assert ms[..i] == ms;
    return Done(generators);
  }

  /** Prepends one path segment to every generator, in a loop. */
  method PrependPathOnAll(gs: seq<Generator>, prefix: string) returns (out: seq<Generator>)
    ensures out == PrependAll(gs, prefix)
  {
    out := [];
    var j := 0;
    while j < |gs|
      invariant 0 <= j <= |gs|
      invariant out == PrependAll(gs[..j], prefix)
    {
      out := out + [PrependPath(gs[j], prefix)];
      j := j + 1;
    }
    assert gs[..j] == gs;
  }

  /** The body of the field loop of `NeedMetricsGeneratorFor` for one field. */
  method GeneratorsOfField(u: Universe, pkg: PkgId, f: Field, fuel: nat) returns (r: Outcome<seq<Generator>>)
    ensures r == FieldGenerators(u, pkg, f, fuel)
  {
    if f.jsonTag.None? {
      return Done([]);
    }
    var jsonOpts := Split(f.jsonTag.value);
    if |jsonOpts| == 1 && jsonOpts[0] == "-" {
      return Done([]);
    }
    var fromMarkers := GeneratorsFromMarkers(u.lib, f.markers, [jsonOpts[0]]);
    if !fromMarkers.Done? {
      return fromMarkers;
    }
    var nested := GeneratorsFor(u, pkg, f.typ, fuel);
    if !nested.Done? {
      return nested;
    }
    var prefixed := PrependPathOnAll(nested.value, jsonOpts[0]);
    return Done(fromMarkers.value + prefixed);
  }

  /** The field loop of `NeedMetricsGeneratorFor`: each field's generators
      are appended; the first failure ends the loop. */
  method FieldsLoop(u: Universe, pkg: PkgId, fields: seq<Field>, fuel: nat) returns (r: Outcome<seq<Generator>>)
    ensures r == FieldsGenerators(u, pkg, fields, fuel)
  {
    var generators := [];
    var i := 0;
    while i < |fields|
      invariant 0 <= i <= |fields|
      invariant FieldsGenerators(u, pkg, fields[..i], fuel) == Done(generators)
    {
      var fieldGenerators := GeneratorsOfField(u, pkg, fields[i], fuel);
      FieldsStep(u, pkg, fields, fuel, i);
      if !fieldGenerators.Done? {
        FieldsFailureSticks(u, pkg, fields, fuel, i + 1);
        return fieldGenerators;
      }
      generators := generators + fieldGenerators.value;
      i := i + 1;
    }
    assert fields[..i] == fields;
    return Done(generators);
  }

  /** The parser's state: the type checker, imports and JSONPath library
      (fixed), the package index that grows as roots are indexed, the
      resource table written once per GroupKind, the never-written
      `FlattenedMetrics` and the errors recorded against packages. */
  class Parser {
    const typeOf: (PkgId, string) -> Resolution
    const imports: PkgId -> map<string, PkgId>
    const lib: Library
    var types: map<TypeIdent, TypeInfo>
    var groupVersions: map<PkgId, GroupVersion>
    /** The order in which ranging over `groupVersions` visits its packages. */
    var packageOrder: seq<PkgId>
    var loaded: set<PkgId>
    var customResourceStates: map<GroupKind, ResourceValue>
    var flattenedMetrics: map<TypeIdent, seq<Generator>>
    var errors: seq<PackageError>

    ghost predicate Valid()
      reads this
    {
      IndexValid(Ix())
    }

    function Ix(): Index
      reads this
    {
      Index(types, groupVersions, packageOrder, loaded)
    }

    function U(): Universe
      reads this
    {
      Universe(types, typeOf, imports, lib, flattenedMetrics.Keys)
    }

    /** `newParser` over an empty index: nothing is indexed and both tables
        start empty. Go leaves the order of ranging over a map unspecified;
        `order` fixes it: packages it lists are visited in its order, the
        others after them in the order they are indexed. */
    constructor (typeOf: (PkgId, string) -> Resolution, imports: PkgId -> map<string, PkgId>,
                 lib: Library, order: seq<PkgId>)
      requires forall i, j :: 0 <= i < j < |order| ==> order[i] != order[j]
      ensures Valid()
      ensures this.typeOf == typeOf && this.imports == imports && this.lib == lib
      ensures Ix() == Index(map[], map[], order, {})
      ensures customResourceStates == map[] && flattenedMetrics == map[] && errors == []
    {
      this.typeOf := typeOf;
      this.imports := imports;
      this.lib := lib;
      types := map[];
      groupVersions := map[];
      packageOrder := order;
      loaded := {};
      customResourceStates := map[];
      flattenedMetrics := map[];
      errors := [];
    }

    /** `NeedPackage`: indexes a root package's group version and types,
        once per package. */
    method NeedPackage(pkg: Package)
      requires Valid()
      modifies this`types, this`groupVersions, this`packageOrder, this`loaded
      ensures Valid()
      ensures Ix() == Load(old(Ix()), pkg)
    {
      if pkg.id in loaded {
        return;
      }
      types := types + pkg.types;
      if pkg.groupVersion.Some? {
        groupVersions := groupVersions[pkg.id := pkg.groupVersion.value];
        if pkg.id !in packageOrder {
          packageOrder := packageOrder + [pkg.id];
        }
      }
      loaded := loaded + {pkg.id};
    }

    /** `NeedMetricsGeneratorFor`, collecting the fields' generators in a loop. */
    method NeedMetricsGeneratorFor(typ: TypeIdent, fuel: nat) returns (r: Outcome<seq<Generator>>)
      ensures r == TypeGenerators(U(), typ, fuel)
    {
      if typ in flattenedMetrics {
        return Done([]);
      }
      if typ !in types {
        return Fatal;
      }
      if fuel == 0 {
        return Diverges;
      }
      var u := U();
      var info := types[typ];
      var own := GeneratorsFromMarkers(lib, info.markers, []);
      TypeGeneratorsUnfold(u, typ, fuel);
      if !own.Done? {
        return Fatal;
      }
      var nested := FieldsLoop(u, typ.pkg, info.fields, fuel - 1);
      if !nested.Done? {
        return nested;
      }
      return Done(own.value + nested.value);
    }

    /** The packages whose group is `group`, in iteration order. */
    method PackagesOf(group: string) returns (packages: seq<PkgId>)
      requires Valid()
      ensures packages == Candidates(packageOrder, groupVersions, group)
    {
      packages := [];
      var i := 0;
      while i < |packageOrder|
        invariant 0 <= i <= |packageOrder|
        invariant packages == Candidates(packageOrder[..i], groupVersions, group)
      {
        assert packageOrder[..i + 1][..i] == packageOrder[..i];
        var p := packageOrder[i];
        if p in groupVersions && groupVersions[p].group == group {
          packages := packages + [p];
        }
        i := i + 1;
      }
      assert packageOrder[..i] == packageOrder;
    }

    /** The first loop of `NeedResourceFor`, on a resource that holds only its group and kind. */
    method SetMetricsAndVersion(kind: string, packages: seq<PkgId>, fuel: nat, resource: Resource)
      returns (status: Outcome<()>)
      requires forall p :: p in packages ==> p in groupVersions
      requires resource.metrics == [] && resource.gvk.version == ""
      modifies resource
      ensures var pass := FirstPass(U(), groupVersions, kind, packages, fuel);
        && status.Fatal? == pass.Fatal? && status.Diverges? == pass.Diverges?
        && (pass.Done? ==>
              && status.Done?
              && resource.Value() == old(resource.Value()).(
                   gvk := old(resource.gvk).(version := pass.value.version), metrics := pass.value.metrics))
    {
      ghost var u := U();
      var i := 0;
      while i < |packages|
        invariant 0 <= i <= |packages|
        invariant FirstPass(u, groupVersions, kind, packages[..i], fuel) ==
                  Done(Versioned(resource.metrics, resource.gvk.version))
        invariant resource.gvk.group == old(resource.gvk.group) && resource.gvk.kind == old(resource.gvk.kind)
        invariant resource.metricNamePrefix == old(resource.metricNamePrefix)
        invariant resource.labelsFromPath == old(resource.labelsFromPath)
      {
        FirstPassStep(u, groupVersions, kind, packages, fuel, i);
        var p := packages[i];
        var t := TypeIdent(p, kind);
        if t in types && GvkMarker in types[t].markers {
          var gens := NeedMetricsGeneratorFor(t, fuel);
          if !gens.Done? {
            FirstPassFailureSticks(u, groupVersions, kind, packages, fuel, i + 1);
            return if gens.Fatal? then Fatal else Diverges;
          }
          resource.metrics := SortBy(gens.value, NameKey);
          if resource.gvk.version != "" {
            FirstPassFailureSticks(u, groupVersions, kind, packages, fuel, i + 1);
            return Fatal;
          }
          resource.gvk := resource.gvk.(version := groupVersions[p].version);
        }
        i := i + 1;
      }
      assert packages[..i] == packages;
      return Done(());
    }

    /** The second loop of `NeedResourceFor`: every resource marker of the
        packages' types is applied, and each error is recorded. */
    method ApplyResourceMarkers(kind: string, packages: seq<PkgId>, resource: Resource)
      modifies resource, this`errors
      ensures var (w, es) := ApplyAll(lib, old(resource.Value()), MarkersOfPackages(U(), kind, packages));
        resource.Value() == w && errors == old(errors) + es
    {
      ghost var u := U();
      ghost var initial := resource.Value();
      ghost var applied: seq<(PkgId, ResourceMarker)> := [];
      ghost var added: seq<PackageError> := [];
      var i := 0;
      while i < |packages|
        invariant 0 <= i <= |packages|
        invariant applied == MarkersOfPackages(u, kind, packages[..i])
        invariant (resource.Value(), added) == ApplyAll(lib, initial, applied)
        invariant errors == old(errors) + added
      {
        var p := packages[i];
        var t := TypeIdent(p, kind);
        MarkersOfPackagesSnoc(u, kind, packages, i);
        if t in types {
          var ms := types[t].markers;
          ghost var before := applied;
          var j := 0;
          while j < |ms|
            invariant 0 <= j <= |ms|
            invariant applied == before + ResourceMarkersIn(p, ms[..j])
            invariant (resource.Value(), added) == ApplyAll(lib, initial, applied)
            invariant errors == old(errors) + added
          {
            ResourceMarkersInSnoc(p, ms, j);
            if ms[j].ResourceLevel? {
              var rm := ms[j].rm;
              ApplyAllSnoc(lib, initial, applied, (p, rm));
              var err := ApplyToResource(rm, lib, resource);
              if err.Some? {
                errors := errors + [PackageError(p, err.value)];
                added := added + [PackageError(p, err.value)];
              }
              applied := applied + [(p, rm)];
            }
            j := j + 1;
          }
          assert ms[..j] == ms;
        }
        i := i + 1;
      }
      assert packages[..i] == packages;
    }

    /** `NeedResourceFor`: a GroupKind already in the table is left alone;
        otherwise the packages of its group are collected, the first pass
        sets the metrics and version, the second applies every resource
        marker, recording its errors, and the resource is stored. */
    method NeedResourceFor(gk: GroupKind, fuel: nat) returns (status: Outcome<()>)
      requires Valid()
      modifies this`customResourceStates, this`errors
      ensures gk in old(customResourceStates) ==>
        status == Done(()) && customResourceStates == old(customResourceStates) && errors == old(errors)
      ensures gk !in old(customResourceStates) ==>
        var built := BuildResource(U(), groupVersions, packageOrder, gk, fuel);
        && status.Fatal? == built.Fatal? && status.Diverges? == built.Diverges?
        && (built.Done? ==> customResourceStates == old(customResourceStates)[gk := built.value.0] &&
                            errors == old(errors) + built.value.1)
        && (!built.Done? ==> customResourceStates == old(customResourceStates) && errors == old(errors))
    {
      if gk in customResourceStates {
        return Done(());
      }
      var packages := PackagesOf(gk.group);
      var resource := new Resource(GroupVersionKind(gk.group, "", gk.kind));
      status := SetMetricsAndVersion(gk.kind, packages, fuel, resource);
      if !status.Done? {
        return;
      }
      ApplyResourceMarkers(gk.kind, packages, resource);
      customResourceStates := customResourceStates[gk := resource.Value()];
    }
  }
}
