/** The configuration: its entities, its validation and its normal form. */
module Config {
  import opened Wrappers
  import opened Strings
  import opened Sorting

  datatype BackendType = Sqlite | Duckdb | Parquet

  datatype Backend = Backend(name: string, kind: BackendType, path: string, relation: Option<string>, enabled: bool) {
    /** The relation a Parquet backend exposes. */
    function Relation(): string {
      match relation case Some(r) => r case None => "data"
    }
  }

  datatype ViewMode = UnionAll | UnionAllByName
  datatype MissingSourcePolicy = Error | Skip

  datatype ViewInput = ViewInput(backend: string, relation: string, columns: map<string, string>)

  datatype LogicalView = LogicalView(
    name: string, schema: string, enabled: bool, mode: ViewMode, missingSourcePolicy: MissingSourcePolicy,
    sourceColumn: Option<string>, columns: map<string, string>, inputs: seq<ViewInput>) {
    function QualifiedName(): string { schema + "." + name }
  }

  datatype Configuration = Configuration(
    version: nat, listen: string, workers: nat, threadsPerWorker: nat, maxRows: nat, requestTimeoutSeconds: nat,
    backends: seq<Backend>, views: seq<LogicalView>)

  // ----- identifiers -----

  predicate IsAlphanumeric(c: char) {
    'a' <= c <= 'z' || 'A' <= c <= 'Z' || '0' <= c <= '9'
  }

  predicate ValidName(name: string) {
    && name != ""
    && |name| <= 63
    && forall i :: 0 <= i < |name| ==>
         name[i] == '_' || (IsAlphanumeric(name[i]) && (i > 0 || !('0' <= name[i] <= '9')))
  }

  /** Names contain none of the separators the repository splits names and specs at. */
  lemma ValidNameIsPlain(name: string)
    requires ValidName(name)
    ensures '.' !in name && '=' !in name && ':' !in name && '"' !in name && '\'' !in name
  {
  }

  predicate ValidRelation(value: string) {
    var parts := Split(value, '.');
    |parts| <= 2 && forall p :: p in parts ==> ValidName(p)
  }

  predicate ValidDataType(value: string) {
    && value != ""
    && |value| <= 128
    && forall c :: c in value ==> IsAlphanumeric(c) || c in "_ (),[]"
  }

  const DEFAULT_VIEW_SCHEMA := "unified"

  function ParseQualifiedViewName(value: string): Option<(string, string)> {
    var parts := Split(value, '.');
    var pair :=
      if |parts| == 1 then Some((DEFAULT_VIEW_SCHEMA, parts[0]))
      else if |parts| == 2 then Some((parts[0], parts[1]))
      else None;
    if pair.None? || !ValidName(pair.value.0) || !ValidName(pair.value.1) then None else pair
  }

  lemma {:induction false} SplitOfTwo(a: string, b: string)
    requires '.' !in a && '.' !in b
    ensures Split(a + "." + b, '.') == [a, b]
  {
    SplitOfJoin([a, b], '.');
  }

  /** The parser accepts exactly the two spellings of a view with valid names, and inverts both. */
  lemma ParseQualifiedViewNameMeaning(value: string, schema: string, name: string)
    ensures ParseQualifiedViewName(value) == Some((schema, name)) <==>
            && ValidName(schema) && ValidName(name)
            && (value == schema + "." + name || (value == name && schema == DEFAULT_VIEW_SCHEMA))
  {
    var parts := Split(value, '.');
    JoinOfSplit(value, '.');
    if |parts| == 2 { assert Join(parts, ['.']) == parts[0] + "." + parts[1]; }
    if ValidName(schema) && ValidName(name) {
      SplitOfTwo(schema, name);
      SplitPartsAreClean(name, '.');
    }
  }

  lemma QualifiedNameIsInjective(v: LogicalView, w: LogicalView)
    requires ValidName(v.schema) && ValidName(v.name) && ValidName(w.schema) && ValidName(w.name)
    ensures v.QualifiedName() == w.QualifiedName() <==> v.schema == w.schema && v.name == w.name
  {
    SplitOfTwo(v.schema, v.name);
    SplitOfTwo(w.schema, w.name);
    assert [v.schema, v.name][0] == v.schema && [v.schema, v.name][1] == v.name;
  }

  // ----- validity, said without order -----

  predicate AbsolutePath(path: string) { path != "" && path[0] == '/' }

  predicate ValidBackend(b: Backend) {
    && ValidName(b.name)
    && AbsolutePath(b.path)
    && (if b.kind == Parquet then ValidName(b.Relation()) else b.relation.None?)
  }

  predicate ValidInput(view: LogicalView, input: ViewInput) {
    && ValidName(input.backend)
    && ValidRelation(input.relation)
    && forall l :: l in input.columns ==> ValidName(l) && ValidName(input.columns[l]) && l in view.columns
  }

  predicate DistinctInputs(inputs: seq<ViewInput>) {
    forall i, j :: 0 <= i < j < |inputs| ==> inputs[i].backend != inputs[j].backend
  }

  predicate ValidView(view: LogicalView) {
    && ValidName(view.schema)
    && ValidName(view.name)
    && (view.sourceColumn.Some? ==> ValidName(view.sourceColumn.value) && view.sourceColumn.value !in view.columns)
    && view.inputs != []
    && (forall c :: c in view.columns ==> ValidName(c) && ValidDataType(view.columns[c]))
    && (forall i :: 0 <= i < |view.inputs| ==> ValidInput(view, view.inputs[i]))
    && DistinctInputs(view.inputs)
  }

  predicate ValidSettings(c: Configuration) {
    && c.version == 1
    && 1 <= c.workers <= 64
    && 1 <= c.threadsPerWorker <= 64
    && c.maxRows > 0
    && c.requestTimeoutSeconds > 0
  }

  predicate DistinctViews(views: seq<LogicalView>) {
    forall i, j :: 0 <= i < j < |views| ==> views[i].schema != views[j].schema || views[i].name != views[j].name
  }

  /** What a configuration has to satisfy, whatever order its backends and views are listed in. */
  predicate ValidConfig(c: Configuration) {
    && ValidSettings(c)
    && (forall b :: b in c.backends ==> ValidBackend(b))
    && DistinctKeys(c.backends, BackendKey)
    && (forall v :: v in c.views ==> ValidView(v))
    && DistinctViews(c.views)
  }

  const BackendKey: Backend -> string := (b: Backend) => b.name
  const ViewKey: LogicalView -> string := (v: LogicalView) => v.QualifiedName()

  /** Both lists sorted, the form in which configurations are loaded and saved. */
  function Normal(c: Configuration): Configuration {
    c.(backends := Sort(c.backends, BackendKey), views := Sort(c.views, ViewKey))
  }

  /** `validate_config` as a function: the configuration it leaves behind, if it succeeds. */
  function Validated(c: Configuration): Option<Configuration> {
    if ValidConfig(c) then Some(Normal(c)) else None
  }

  // ----- validate_config -----

  /** Why a configuration was refused. */
  datatype ConfigError =
    | BadSettings
    | BadBackend(backend: Backend)
    | DuplicateBackend(name: string)
    | BadView(view: LogicalView)
    | DuplicateView(schema: string, name: string)

  ghost predicate SharedBackendName(backends: seq<Backend>, name: string) {
    exists i, j :: 0 <= i < j < |backends| && backends[i].name == name && backends[j].name == name
  }

  ghost predicate SharedViewName(views: seq<LogicalView>, schema: string, name: string) {
    exists i, j :: 0 <= i < j < |views| && views[i].schema == views[j].schema == schema &&
                   views[i].name == views[j].name == name
  }

  /** The reason given is true of the configuration. */
  ghost predicate Explains(e: ConfigError, c: Configuration) {
    match e
    case BadSettings => !ValidSettings(c)
    case BadBackend(b) => b in c.backends && !ValidBackend(b)
    case DuplicateBackend(name) => SharedBackendName(c.backends, name)
    case BadView(v) => v in c.views && !ValidView(v)
    case DuplicateView(schema, name) => SharedViewName(c.views, schema, name)
  }

  /** The checks of one view, in the order the repository makes them. */
  method CheckView(view: LogicalView) returns (ok: bool)
    ensures ok <==> ValidView(view)
  {
    if !ValidName(view.schema) || !ValidName(view.name) { return false; }
    if view.sourceColumn.Some? {
      if !ValidName(view.sourceColumn.value) || view.sourceColumn.value in view.columns { return false; }
    }
    if |view.inputs| == 0 { return false; }
    if exists c :: c in view.columns && !(ValidName(c) && ValidDataType(view.columns[c])) { return false; }
    for index := 0 to |view.inputs|
      invariant forall i :: 0 <= i < index ==> ValidInput(view, view.inputs[i])
      invariant DistinctInputs(view.inputs[..index])
    {
      var input := view.inputs[index];
      if !ValidName(input.backend) || !ValidRelation(input.relation) { return false; }
      if exists k :: 0 <= k < index && view.inputs[k].backend == input.backend {
        return false;
      }
      if exists l :: l in input.columns &&
                     !(ValidName(l) && ValidName(input.columns[l]) && l in view.columns) {
        return false;
      }
    }
    assert view.inputs[..|view.inputs|] == view.inputs;
    return true;
  }

  method CheckBackends(backends: seq<Backend>) returns (error: Option<ConfigError>)
    ensures error.None? <==> (forall b :: b in backends ==> ValidBackend(b)) && DistinctKeys(backends, BackendKey)
    ensures error.Some? ==>
      match error.value
      case BadBackend(b) => b in backends && !ValidBackend(b)
      case DuplicateBackend(name) => SharedBackendName(backends, name)
      case _ => false
  {
    for index := 0 to |backends|
      invariant forall i :: 0 <= i < index ==> ValidBackend(backends[i])
      invariant forall i, j :: 0 <= i < j < index ==> backends[i].name != backends[j].name
    {
      var backend := backends[index];
      if !ValidName(backend.name) {
        assert !ValidBackend(backend);
        return Some(BadBackend(backend));
      }
      if exists k :: 0 <= k < index && backends[k].name == backend.name {
        ghost var k :| 0 <= k < index && backends[k].name == backend.name;
        assert BackendKey(backends[k]) == BackendKey(backends[index]);
        return Some(DuplicateBackend(backend.name));
      }
      if !AbsolutePath(backend.path) ||
         (if backend.kind == Parquet then !ValidName(backend.Relation()) else backend.relation.Some?) {
        assert !ValidBackend(backend);
        return Some(BadBackend(backend));
      }
    }
    return None;
  }

  method CheckViews(views: seq<LogicalView>) returns (error: Option<ConfigError>)
    ensures error.None? <==> (forall v :: v in views ==> ValidView(v)) && DistinctViews(views)
    ensures error.Some? ==>
      match error.value
      case BadView(v) => v in views && !ValidView(v)
      case DuplicateView(schema, name) => SharedViewName(views, schema, name)
      case _ => false
  {
    for index := 0 to |views|
      invariant forall i :: 0 <= i < index ==> ValidView(views[i])
      invariant forall i, j :: 0 <= i < j < index ==>
                  views[i].schema != views[j].schema || views[i].name != views[j].name
    {
      var view := views[index];
      if !ValidName(view.schema) || !ValidName(view.name) {
        assert !ValidView(view);
        return Some(BadView(view));
      }
      if exists k :: 0 <= k < index && views[k].schema == view.schema && views[k].name == view.name {
        return Some(DuplicateView(view.schema, view.name));
      }
      var ok := CheckView(view);
      if !ok {
        assert !ValidView(view);
        return Some(BadView(view));
      }
    }
    return None;
  }

  /** Sorts the backends, checks them, sorts the views, checks them. The `&mut Config` of the
      original is the argument and, on success, the result. */
  method ValidateConfig(input: Configuration) returns (r: Result<Configuration, ConfigError>)
    ensures r.Success? <==> ValidConfig(input)
    ensures r.Success? ==> r.value == Normal(input)
    ensures r.Failure? ==> Explains(r.error, Normal(input))
  {
    var config := input;
    ValidityOfNormal(input);
    if config.version != 1 || config.workers == 0 || config.workers > 64 || config.threadsPerWorker == 0 ||
       config.threadsPerWorker > 64 || config.maxRows == 0 || config.requestTimeoutSeconds == 0 {
      return Failure(BadSettings);
    }
    config := config.(backends := Sort(config.backends, BackendKey));
    var error := CheckBackends(config.backends);
    if error.Some? { return Failure(error.value); }
    config := config.(views := Sort(config.views, ViewKey));
    error := CheckViews(config.views);
    if error.Some? { return Failure(error.value); }
    return Success(config);
  }

  // ----- normal form -----

  lemma DistinctViewsAreKeyed(views: seq<LogicalView>)
    requires forall v :: v in views ==> ValidView(v)
    ensures DistinctViews(views) <==> DistinctKeys(views, ViewKey)
  {
    forall i, j | 0 <= i < j < |views|
      ensures (views[i].schema != views[j].schema || views[i].name != views[j].name) <==>
              ViewKey(views[i]) != ViewKey(views[j])
    {
      assert ValidView(views[i]) && ValidView(views[j]);
      QualifiedNameIsInjective(views[i], views[j]);
    }
  }

  /** The same settings and the same backends and views, listed in any order. */
  ghost predicate SameListing(c: Configuration, d: Configuration) {
    && d == c.(backends := d.backends, views := d.views)
    && multiset(c.backends) == multiset(d.backends)
    && multiset(c.views) == multiset(d.views)
  }

  /** Whether a configuration is valid, and what it normalises to, does not depend on the listing order. */
  lemma NormalFormIgnoresOrder(c: Configuration, d: Configuration)
    requires SameListing(c, d)
    ensures Validated(c) == Validated(d)
  {
    ValidityIgnoresOrder(c, d);
    if ValidConfig(c) {
      SortOfPermutation(c.backends, d.backends, BackendKey);
      DistinctViewsAreKeyed(c.views);
      SortOfPermutation(c.views, d.views, ViewKey);
    }
  }

  lemma ValidityIgnoresOrder(c: Configuration, d: Configuration)
    requires SameListing(c, d)
    ensures ValidConfig(c) <==> ValidConfig(d)
  {
    assert forall b :: b in c.backends <==> b in multiset(c.backends);
    assert forall b :: b in d.backends <==> b in multiset(d.backends);
    assert forall v :: v in c.views <==> v in multiset(c.views);
    assert forall v :: v in d.views <==> v in multiset(d.views);
    DistinctKeysOfPermutation(c.backends, d.backends, BackendKey);
    if forall v :: v in c.views ==> ValidView(v) {
      DistinctViewsAreKeyed(c.views);
      DistinctViewsAreKeyed(d.views);
      DistinctKeysOfPermutation(c.views, d.views, ViewKey);
    }
  }

  lemma ValidityOfNormal(c: Configuration)
    ensures SameListing(c, Normal(c))
    ensures ValidConfig(c) <==> ValidConfig(Normal(c))
  {
    SortKeeps(c.backends, BackendKey);
    SortKeeps(c.views, ViewKey);
    ValidityIgnoresOrder(c, Normal(c));
  }

  /** Loading what was saved changes nothing: the normal form is a fixed point of validation. */
  lemma NormalFormIsFixed(c: Configuration, n: Configuration)
    requires Validated(c) == Some(n)
    ensures Validated(n) == Some(n)
  {
    ValidityOfNormal(c);
    SortKeeps(c.backends, BackendKey);
    SortKeeps(c.views, ViewKey);
    SortOfSorted(n.backends, BackendKey);
    SortOfSorted(n.views, ViewKey);
  }

  /** The normal form of a valid configuration lists the same backends by name and the same views by qualified name,
      in the order of a dictionary, and changes nothing else. */
  lemma NormalFormOrder(c: Configuration)
    requires ValidConfig(c)
    ensures SameListing(c, Normal(c))
    ensures var b := Normal(c).backends; forall i, j :: 0 <= i < j < |b| ==> Precedes(b[i].name, b[j].name)
    ensures var v := Normal(c).views;
            forall i, j :: 0 <= i < j < |v| ==> Precedes(v[i].schema + "." + v[i].name, v[j].schema + "." + v[j].name)
  {
    ValidityOfNormal(c);
    SortKeeps(c.backends, BackendKey);
    SortKeeps(c.views, ViewKey);
    var (b, v) := (Normal(c).backends, Normal(c).views);
    DistinctViewsAreKeyed(v);
    SortedMeaning(b, BackendKey);
    SortedMeaning(v, ViewKey);
    forall i, j | 0 <= i < j < |b| ensures Precedes(b[i].name, b[j].name) {
      assert Precedes(BackendKey(b[i]), BackendKey(b[j]));
    }
    forall i, j | 0 <= i < j < |v|
      ensures Precedes(v[i].schema + "." + v[i].name, v[j].schema + "." + v[j].name)
    {
      assert Precedes(ViewKey(v[i]), ViewKey(v[j]));
    }
  }

  // ----- what the checks accept, in so many words -----

  /** `[A-Za-z_][A-Za-z0-9_]{0,62}` */
  lemma ValidNameMeaning(name: string)
    ensures ValidName(name) <==>
            && 1 <= |name| <= 63
            && !('0' <= name[0] <= '9')
            && forall c :: c in name ==> 'a' <= c <= 'z' || 'A' <= c <= 'Z' || '0' <= c <= '9' || c == '_'
  {
    if forall c :: c in name ==> 'a' <= c <= 'z' || 'A' <= c <= 'Z' || '0' <= c <= '9' || c == '_' {
      assert forall i :: 0 <= i < |name| ==> name[i] in name;
    }
  }

  /** `TABLE` or `SCHEMA.TABLE`. */
  lemma ValidRelationMeaning(value: string)
    ensures ValidRelation(value) <==>
            || ValidName(value)
            || exists schema, table :: ValidName(schema) && ValidName(table) && value == schema + "." + table
  {
    var parts := Split(value, '.');
    JoinOfSplit(value, '.');
    if ValidName(value) { SplitPartsAreClean(value, '.'); }
    if schema, table :| ValidName(schema) && ValidName(table) && value == schema + "." + table {
      SplitOfTwo(schema, table);
    }
    if ValidRelation(value) {
      assert parts[0] in parts;
      if |parts| == 2 {
        assert parts[1] in parts && Join(parts, ['.']) == parts[0] + "." + parts[1];
      } else {
        assert Join(parts, ['.']) == parts[0];
      }
    }
  }

  /** A bare view name is in the schema `unified`. */
  lemma BareViewName(name: string)
    ensures '.' !in name ==> ParseQualifiedViewName(name) == if ValidName(name) then Some(("unified", name)) else None
  {
    SplitPartsAreClean(name, '.');
    ValidNameMeaning("unified");
  }

  lemma ValidDataTypeMeaning(value: string)
    ensures ValidDataType(value) <==>
            && 1 <= |value| <= 128
            && forall c :: c in value ==>
                 || 'a' <= c <= 'z' || 'A' <= c <= 'Z' || '0' <= c <= '9'
                 || c == '_' || c == ' ' || c == '(' || c == ')' || c == ',' || c == '[' || c == ']'
  {
    assert forall c :: c in "_ (),[]" <==>
                         c == '_' || c == ' ' || c == '(' || c == ')' || c == ',' || c == '[' || c == ']';
  }

  /** A backend has a name and an absolute path; a Parquet backend also has a relation, by default `data`, and only a
      Parquet backend may be given one. */
  lemma ValidBackendMeaning(b: Backend)
    ensures ValidBackend(b) <==>
            && ValidName(b.name) && "/" <= b.path
            && (b.relation.Some? ==> b.kind == Parquet && ValidName(b.relation.value))
    ensures b.kind == Parquet ==> b.Relation() == if b.relation.Some? then b.relation.value else "data"
  {
    ValidNameMeaning("data");
  }

  /** The bounds of the settings. */
  lemma ValidSettingsMeaning(c: Configuration)
    ensures ValidSettings(c) <==>
            && c.version == 1 && 0 < c.workers < 65 && 0 < c.threadsPerWorker < 65
            && c.maxRows != 0 && c.requestTimeoutSeconds != 0
  {
  }

  /** What a view has to be like: names, a source column that is not one of its columns, at least one input, no
      backend twice, and mappings from its own columns only. */
  lemma ValidViewMeaning(view: LogicalView)
    ensures ValidView(view) <==>
            && ValidName(view.schema) && ValidName(view.name) && |view.inputs| > 0
            && (forall c :: view.sourceColumn == Some(c) ==> ValidName(c) && c !in view.columns.Keys)
            && (forall c :: c in view.columns.Keys ==> ValidName(c) && ValidDataType(view.columns[c]))
            && (forall i :: i in view.inputs ==> ValidName(i.backend) && ValidRelation(i.relation))
            && (forall i, l :: i in view.inputs && l in i.columns.Keys ==>
                  l in view.columns.Keys && ValidName(i.columns[l]))
            && forall b :: multiset(InputNames(view.inputs))[b] <= 1
  {
    DistinctInputsMeaning(view.inputs);
    assert forall i :: 0 <= i < |view.inputs| ==> view.inputs[i] in view.inputs;
  }

  function InputNames(inputs: seq<ViewInput>): (r: seq<string>)
    ensures |r| == |inputs| && forall i :: 0 <= i < |r| ==> r[i] == inputs[i].backend
  {
    seq(|inputs|, i requires 0 <= i < |inputs| => inputs[i].backend)
  }

  lemma DistinctInputsMeaning(inputs: seq<ViewInput>)
    ensures DistinctInputs(inputs) <==> forall b :: multiset(InputNames(inputs))[b] <= 1
  {
    OnceEach(InputNames(inputs));
    assert DistinctInputs(inputs) <==>
           forall i, j :: 0 <= i < j < |inputs| ==> InputNames(inputs)[i] != InputNames(inputs)[j];
  }

  lemma {:induction false} OnceEach(names: seq<string>)
    ensures (forall i, j :: 0 <= i < j < |names| ==> names[i] != names[j]) <==>
            forall n :: multiset(names)[n] <= 1
  {
    if names != [] {
      var (first, rest) := (names[0], names[1..]);
      OnceEach(rest);
      assert names == [first] + rest;
      assert multiset(names)[first] == 1 + multiset(rest)[first];
      assert forall n :: n in rest <==> n in multiset(rest);
      if forall i, j :: 0 <= i < j < |names| ==> names[i] != names[j] {
        assert forall j :: 0 <= j < |rest| ==> rest[j] == names[j + 1];
        assert first !in rest;
      }
      if forall n :: multiset(names)[n] <= 1 {
        assert first !in rest;
        forall n ensures multiset(rest)[n] <= 1 { assert multiset(rest)[n] <= multiset(names)[n]; }
        forall i, j | 0 <= i < j < |names| ensures names[i] != names[j] {
          assert names[j] == rest[j - 1];
          if i > 0 { assert names[i] == rest[i - 1]; }
        }
      }
    }
  }

  /** Settings, backends and views are each valid, and no name is given twice. */
  lemma ValidConfigMeaning(c: Configuration)
    ensures ValidConfig(c) <==>
            && ValidSettings(c)
            && (forall b :: b in c.backends ==> ValidBackend(b))
            && (forall v :: v in c.views ==> ValidView(v))
            && (forall i, j :: 0 <= i < j < |c.backends| ==> c.backends[i].name != c.backends[j].name)
            && (forall i, j :: 0 <= i < j < |c.views| ==>
                  !(c.views[i].schema == c.views[j].schema && c.views[i].name == c.views[j].name))
  {
    assert DistinctKeys(c.backends, BackendKey) <==>
           forall i, j :: 0 <= i < j < |c.backends| ==> c.backends[i].name != c.backends[j].name by {
      assert forall i :: 0 <= i < |c.backends| ==> BackendKey(c.backends[i]) == c.backends[i].name;
    }
  }
}
