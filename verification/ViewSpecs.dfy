/** The command-line spellings of a logical view (`view add`): their parsers, and the spellings
    those parsers invert. */
module ViewSpecs {
  import opened Wrappers
  import opened Strings
  import opened Sorting
  import opened Config

  datatype SpecError =
    | InvalidViewName
    | InvalidInput(spec: string)
    | DuplicateInput(backend: string)
    | InvalidColumn(spec: string)
    | DuplicateColumn(name: string)
    | SchemaRequired
    | InvalidMapping(spec: string)
    | UnknownLogicalColumn(spec: string)
    | MappingBackendNotFound(spec: string)
    | DuplicateMapping(spec: string)
    | InvalidSourceColumn

  // ----- maps as sets of entries -----

  ghost function Entries(m: map<string, string>): set<(string, string)> {
    set l | l in m :: (l, m[l])
  }

  lemma MapOfEntries(m: map<string, string>, n: map<string, string>)
    requires Entries(m) == Entries(n)
    ensures m == n
  {
    forall k | k in m ensures k in n && n[k] == m[k] { assert (k, m[k]) in Entries(n); }
    forall k | k in n ensures k in m { assert (k, n[k]) in Entries(m); }
  }

  lemma EntriesOfUpdate(m: map<string, string>, l: string, p: string)
    requires l !in m
    ensures Entries(m[l := p]) == Entries(m) + {(l, p)}
  {
    var n := m[l := p];
    forall e | e in Entries(m) + {(l, p)} ensures e in Entries(n) {
      assert e.0 in n && n[e.0] == e.1;
    }
  }

  // ----- inputs: BACKEND=TABLE or BACKEND=SCHEMA.TABLE -----

  function ParseViewInput(spec: string): Option<ViewInput> {
    match SplitOnce(spec, '=')
    case None => None
    case Some((backend, relation)) =>
      if ValidName(backend) && ValidRelation(relation) then Some(ViewInput(backend, relation, map[])) else None
  }

  /** `BACKEND=TABLE` or `BACKEND=SCHEMA.TABLE`, and nothing else. */
  lemma ParseViewInputMeaning(spec: string, input: ViewInput)
    ensures ParseViewInput(spec) == Some(input) <==>
            && spec == input.backend + "=" + input.relation && input.columns == map[]
            && ValidName(input.backend) && ValidRelation(input.relation)
  {
    if ValidName(input.backend) {
      ValidNameIsPlain(input.backend);
      SplitOnceAt(input.backend, input.relation, '=');
    }
  }

  function PrintInput(input: ViewInput): string { input.backend + "=" + input.relation }

  lemma InputRoundTrip(input: ViewInput)
    requires ValidName(input.backend) && ValidRelation(input.relation)
    ensures ParseViewInput(PrintInput(input)) == Some(input.(columns := map[]))
  {
    ValidNameIsPlain(input.backend);
    SplitOnceAt(input.backend, input.relation, '=');
  }

  // ----- columns: NAME=TYPE -----

  function ParseColumn(spec: string): Option<(string, string)> {
    match SplitOnce(spec, '=')
    case None => None
    case Some((name, dataType)) => if ValidName(name) then Some((name, dataType)) else None
  }

  /** `NAME=TYPE`; the type is everything after the first equals sign. */
  lemma ParseColumnMeaning(spec: string, name: string, dataType: string)
    ensures ParseColumn(spec) == Some((name, dataType)) <==> ValidName(name) && spec == name + "=" + dataType
  {
    if ValidName(name) {
      ValidNameIsPlain(name);
      SplitOnceAt(name, dataType, '=');
    }
  }

  function PrintColumn(name: string, dataType: string): string { name + "=" + dataType }

  const ColumnKey: string -> string := (spec: string) =>
    match ParseColumn(spec) case Some(pair) => pair.0 case None => ""

  ghost predicate ColumnSpecsOk(specs: seq<string>) {
    (forall s :: s in specs ==> ParseColumn(s).Some?) && DistinctKeys(specs, ColumnKey)
  }

  function ColumnEntry(spec: string): (string, string) {
    match ParseColumn(spec) case Some(pair) => pair case None => ("", "")
  }

  ghost function ColumnEntries(specs: seq<string>): set<(string, string)> {
    set s | s in specs :: ColumnEntry(s)
  }

  /** `columns` holds what the specs say and nothing else. */
  ghost predicate Declares(specs: seq<string>, columns: map<string, string>) {
    Entries(columns) == ColumnEntries(specs)
  }

  method ParseColumns(specs: seq<string>) returns (r: Result<map<string, string>, SpecError>)
    ensures r.Success? <==> ColumnSpecsOk(specs)
    ensures r.Success? ==> Declares(specs, r.value)
    ensures r.Failure? ==>
      match r.error
      case InvalidColumn(spec) => spec in specs && ParseColumn(spec).None?
      case DuplicateColumn(name) =>
        exists i, j :: 0 <= i < j < |specs| && ColumnKey(specs[i]) == ColumnKey(specs[j]) == name
      case _ => false
  {
    var columns: map<string, string> := map[];
    for index := 0 to |specs|
      invariant ColumnSpecsOk(specs[..index])
      invariant Declares(specs[..index], columns)
    {
      var spec := specs[index];
      ghost var before := specs[..index];
      assert specs[..index + 1] == before + [spec];
      assert spec in specs;
      var pair := SplitOnce(spec, '=');
      if pair.None? || !ValidName(pair.value.0) {
        return Failure(InvalidColumn(spec));
      }
      var (name, dataType) := pair.value;
      if name in columns {
        ghost var i := DeclaredAt(before, columns, name);
        assert ColumnKey(specs[i]) == ColumnKey(specs[index]) == name;
        return Failure(DuplicateColumn(name));
      }
      OneMoreColumn(before, columns, spec);
      columns := columns[name := dataType];
    }
    assert specs[..|specs|] == specs;
    return Success(columns);
  }

  lemma DeclaredAt(specs: seq<string>, columns: map<string, string>, name: string) returns (i: nat)
    requires ColumnSpecsOk(specs) && Declares(specs, columns) && name in columns
    ensures i < |specs| && ColumnKey(specs[i]) == name
  {
    assert (name, columns[name]) in Entries(columns);
    var s :| s in specs && ColumnEntry(s) == (name, columns[name]);
    i :| 0 <= i < |specs| && specs[i] == s;
  }

  lemma OneMoreColumn(before: seq<string>, columns: map<string, string>, spec: string)
    requires ColumnSpecsOk(before) && Declares(before, columns)
    requires ParseColumn(spec).Some? && ColumnEntry(spec).0 !in columns
    ensures ColumnSpecsOk(before + [spec])
    ensures Declares(before + [spec], columns[ColumnEntry(spec).0 := ColumnEntry(spec).1])
  {
    var now, name := before + [spec], ColumnEntry(spec).0;
    EntriesOfUpdate(columns, name, ColumnEntry(spec).1);
    assert forall s :: s in now <==> s in before || s == spec;
    assert ColumnEntries(now) == ColumnEntries(before) + {ColumnEntry(spec)};
    forall s | s in before ensures ColumnKey(s) != ColumnKey(spec) {
      assert ColumnEntry(s) in Entries(columns);
    }
    DistinctKeysOfSnoc(before, spec, ColumnKey);
  }

  /** `names` lists the keys of a map, each once, in any order. */
  ghost predicate Lists(names: seq<string>, columns: map<string, string>) {
    && (forall n :: n in columns <==> n in names)
    && (forall i, j :: 0 <= i < j < |names| ==> names[i] != names[j])
  }

  ghost predicate PrintsNames(specs: seq<string>, columns: map<string, string>, names: seq<string>) {
    && Lists(names, columns)
    && |specs| == |names|
    && forall i :: 0 <= i < |names| ==> names[i] in columns && specs[i] == PrintColumn(names[i], columns[names[i]])
  }

  ghost predicate PrintsColumns(specs: seq<string>, columns: map<string, string>) {
    exists names: seq<string> :: PrintsNames(specs, columns, names)
  }

  lemma PrintedColumn(name: string, dataType: string)
    requires ValidName(name)
    ensures ParseColumn(PrintColumn(name, dataType)) == Some((name, dataType))
    ensures ColumnEntry(PrintColumn(name, dataType)) == (name, dataType)
    ensures ColumnKey(PrintColumn(name, dataType)) == name
  {
    ValidNameIsPlain(name);
    SplitOnceAt(name, dataType, '=');
  }

  lemma ColumnsRoundTrip(specs: seq<string>, columns: map<string, string>)
    requires forall n :: n in columns ==> ValidName(n)
    requires PrintsColumns(specs, columns)
    ensures ColumnSpecsOk(specs) && Declares(specs, columns)
  {
    var names: seq<string> :| PrintsNames(specs, columns, names);
    forall i | 0 <= i < |specs|
      ensures ParseColumn(specs[i]).Some?
      ensures ColumnEntry(specs[i]) == (names[i], columns[names[i]]) && ColumnKey(specs[i]) == names[i]
    {
      PrintedColumn(names[i], columns[names[i]]);
    }
    EntriesOfListing(specs, columns, names);
  }

  lemma EntriesOfListing(specs: seq<string>, columns: map<string, string>, names: seq<string>)
    requires Lists(names, columns) && |specs| == |names|
    requires forall i :: 0 <= i < |names| ==>
               names[i] in columns && ColumnEntry(specs[i]) == (names[i], columns[names[i]])
    ensures Declares(specs, columns)
  {
  }

  // ----- mappings: BACKEND:LOGICAL=PHYSICAL -----

  datatype Mapping = Mapping(backend: string, logical: string, physical: string)

  function ParseMapping(spec: string): Option<Mapping> {
    match SplitOnce(spec, ':')
    case None => None
    case Some((backend, mapping)) =>
      match SplitOnce(mapping, '=')
      case None => None
      case Some((logical, physical)) => Some(Mapping(backend, logical, physical))
  }

  /** `BACKEND:LOGICAL=PHYSICAL`, split at the first colon and at the first equals sign after it. */
  lemma ParseMappingMeaning(spec: string, m: Mapping)
    ensures ParseMapping(spec) == Some(m) <==>
            ':' !in m.backend && '=' !in m.logical && spec == m.backend + ":" + m.logical + "=" + m.physical
  {
    if ':' !in m.backend && '=' !in m.logical { MappingRoundTrip(m); }
    if ParseMapping(spec) == Some(m) { assert spec == m.backend + [':'] + (m.logical + ['='] + m.physical); }
  }

  function PrintMapping(m: Mapping): string { m.backend + ":" + m.logical + "=" + m.physical }

  lemma MappingRoundTrip(m: Mapping)
    requires ':' !in m.backend && '=' !in m.logical
    ensures ParseMapping(PrintMapping(m)) == Some(m)
  {
    assert PrintMapping(m) == m.backend + [':'] + (m.logical + ['='] + m.physical);
    SplitOnceAt(m.backend, m.logical + ['='] + m.physical, ':');
    SplitOnceAt(m.logical, m.physical, '=');
  }

  /** The input a mapping goes to: the first with its backend. */
  function FirstInput(inputs: seq<ViewInput>, backend: string): (r: Option<nat>)
    ensures r.None? <==> forall i :: 0 <= i < |inputs| ==> inputs[i].backend != backend
    ensures r.Some? ==> r.value < |inputs| && inputs[r.value].backend == backend
    ensures r.Some? ==> forall i :: 0 <= i < r.value ==> inputs[i].backend != backend
  {
    if inputs == [] then None
    else if inputs[0].backend == backend then Some(0)
    else
      match FirstInput(inputs[1..], backend)
      case None => None
      case Some(i) => Some(i + 1)
  }

  lemma {:induction false} FirstInputIsUnique(inputs: seq<ViewInput>, inputs': seq<ViewInput>, backend: string)
    requires |inputs| == |inputs'|
    requires forall i :: 0 <= i < |inputs| ==> inputs[i].backend == inputs'[i].backend
    ensures FirstInput(inputs, backend) == FirstInput(inputs', backend)
  {
  }

  const MappingKey: string -> string := (spec: string) =>
    match ParseMapping(spec) case Some(m) => m.backend + ":" + m.logical case None => ""

  lemma MappingKeyIsInjective(s: string, t: string)
    requires ParseMapping(s).Some? && ParseMapping(t).Some?
    ensures MappingKey(s) == MappingKey(t) <==>
            ParseMapping(s).value.backend == ParseMapping(t).value.backend &&
            ParseMapping(s).value.logical == ParseMapping(t).value.logical
  {
    var m, n := ParseMapping(s).value, ParseMapping(t).value;
    SplitOnceAt(m.backend, m.logical, ':');
    SplitOnceAt(n.backend, n.logical, ':');
  }

  /** One spec can be applied: well formed, for a declared column, to an input that does not map it yet. */
  predicate MappingOk(inputs: seq<ViewInput>, spec: string, columns: map<string, string>) {
    match ParseMapping(spec)
    case None => false
    case Some(m) =>
      && m.logical in columns
      && ValidName(m.physical)
      && FirstInput(inputs, m.backend).Some?
      && m.logical !in inputs[FirstInput(inputs, m.backend).value].columns
  }

  ghost predicate MappingsOk(inputs: seq<ViewInput>, specs: seq<string>, columns: map<string, string>) {
    (forall s :: s in specs ==> MappingOk(inputs, s, columns)) && DistinctKeys(specs, MappingKey)
  }

  predicate GoesTo(inputs: seq<ViewInput>, spec: string, k: nat) {
    ParseMapping(spec).Some? && FirstInput(inputs, ParseMapping(spec).value.backend) == Some(k)
  }

  function Entry(spec: string): (string, string) {
    match ParseMapping(spec) case Some(m) => (m.logical, m.physical) case None => ("", "")
  }

  /** The column entries the specs give to input `k`. */
  ghost function Added(inputs: seq<ViewInput>, specs: seq<string>, k: nat): set<(string, string)> {
    set s | s in specs && GoesTo(inputs, s, k) :: Entry(s)
  }

  /** `mapped` is `inputs` with the entries of the specs added, each to its own input. */
  ghost predicate MappedAs(inputs: seq<ViewInput>, specs: seq<string>, mapped: seq<ViewInput>) {
    && |mapped| == |inputs|
    && forall k :: 0 <= k < |inputs| ==> MappedInput(inputs, specs, k, mapped[k])
  }

  ghost predicate MappedInput(inputs: seq<ViewInput>, specs: seq<string>, k: nat, mapped: ViewInput)
    requires k < |inputs|
  {
    && mapped.backend == inputs[k].backend
    && mapped.relation == inputs[k].relation
    && Entries(mapped.columns) == Entries(inputs[k].columns) + Added(inputs, specs, k)
  }

  lemma AddedOne(inputs: seq<ViewInput>, before: seq<string>, spec: string, k: nat)
    ensures GoesTo(inputs, spec, k) ==> Added(inputs, before + [spec], k) == Added(inputs, before, k) + {Entry(spec)}
    ensures !GoesTo(inputs, spec, k) ==> Added(inputs, before + [spec], k) == Added(inputs, before, k)
  {
  }

  lemma MappedIsUnique(inputs: seq<ViewInput>, specs: seq<string>, m: seq<ViewInput>, n: seq<ViewInput>)
    requires MappedAs(inputs, specs, m) && MappedAs(inputs, specs, n)
    ensures m == n
  {
    forall k | 0 <= k < |m| ensures m[k] == n[k] { MapOfEntries(m[k].columns, n[k].columns); }
  }

  /** A logical column is in the mapped input only if it was there or an earlier spec put it there. */
  lemma ClashComesFrom(inputs: seq<ViewInput>, before: seq<string>, mapped: seq<ViewInput>, k: nat, l: string)
    requires MappedAs(inputs, before, mapped) && k < |inputs|
    ensures l in mapped[k].columns <==>
            l in inputs[k].columns || exists s :: s in before && GoesTo(inputs, s, k) && Entry(s).0 == l
  {
    var m := mapped[k].columns;
    if l in m {
      assert (l, m[l]) in Entries(m);
      if (l, m[l]) in Added(inputs, before, k) {
        var s :| s in before && GoesTo(inputs, s, k) && Entry(s) == (l, m[l]);
      } else {
        assert (l, m[l]) in Entries(inputs[k].columns);
      }
    }
    if l in inputs[k].columns { assert (l, inputs[k].columns[l]) in Entries(m); }
    if s :| s in before && GoesTo(inputs, s, k) && Entry(s).0 == l {
      assert Entry(s) in Added(inputs, before, k) && Entry(s) in Entries(m);
    }
  }

  /** One more spec keeps the specs applicable exactly if the input it goes to does not map its column yet. */
  lemma OneMore(inputs: seq<ViewInput>, before: seq<string>, mapped: seq<ViewInput>, spec: string,
                columns: map<string, string>, k: nat)
    requires MappingsOk(inputs, before, columns) && MappedAs(inputs, before, mapped)
    requires k < |inputs| && GoesTo(inputs, spec, k)
    requires Entry(spec).0 in columns && ValidName(Entry(spec).1)
    ensures MappingsOk(inputs, before + [spec], columns) <==> Entry(spec).0 !in mapped[k].columns
  {
    ClashComesFrom(inputs, before, mapped, k, Entry(spec).0);
    DistinctKeysOfSnoc(before, spec, MappingKey);
    assert forall s :: s in before + [spec] <==> s in before || s == spec;
    assert MappingOk(inputs, spec, columns) <==> Entry(spec).0 !in inputs[k].columns;
    forall s | s in before
      ensures MappingKey(s) == MappingKey(spec) <==> GoesTo(inputs, s, k) && Entry(s).0 == Entry(spec).0
    {
      SameTarget(inputs, s, spec, columns, k);
    }
  }

  lemma SameTarget(inputs: seq<ViewInput>, s: string, spec: string, columns: map<string, string>, k: nat)
    requires MappingOk(inputs, s, columns) && GoesTo(inputs, spec, k)
    ensures MappingKey(s) == MappingKey(spec) <==> GoesTo(inputs, s, k) && Entry(s).0 == Entry(spec).0
  {
    MappingKeyIsInjective(s, spec);
  }

  lemma StillMapped(inputs: seq<ViewInput>, before: seq<string>, mapped: seq<ViewInput>, spec: string, k: nat)
    requires MappedAs(inputs, before, mapped)
    requires k < |inputs| && GoesTo(inputs, spec, k)
    requires Entry(spec).0 !in mapped[k].columns
    ensures MappedAs(inputs, before + [spec],
                     mapped[k := mapped[k].(columns := mapped[k].columns[Entry(spec).0 := Entry(spec).1])])
  {
    var (l, p) := Entry(spec);
    var input := mapped[k].(columns := mapped[k].columns[l := p]);
    forall j | 0 <= j < |inputs|
      ensures MappedInput(inputs, before + [spec], j, if j == k then input else mapped[j])
    {
      AddedOne(inputs, before, spec, j);
      if j == k {
        EntriesOfUpdate(mapped[k].columns, l, p);
      } else {
        assert !GoesTo(inputs, spec, j);
      }
    }
  }

  lemma MappingsOkForPrefix(inputs: seq<ViewInput>, specs: seq<string>, columns: map<string, string>, n: nat)
    requires n <= |specs|
    requires MappingsOk(inputs, specs, columns)
    ensures MappingsOk(inputs, specs[..n], columns)
  {
  }

  /** Applies the specs one after another to the inputs, in place. */
  method ApplyMappings(inputs: array<ViewInput>, specs: seq<string>, columns: map<string, string>)
    returns (error: Option<SpecError>)
    modifies inputs
    ensures error.None? <==> MappingsOk(old(inputs[..]), specs, columns)
    ensures error.None? ==> MappedAs(old(inputs[..]), specs, inputs[..])
  {
    ghost var was := inputs[..];
    for index := 0 to |specs|
      invariant MappingsOk(was, specs[..index], columns)
      invariant MappedAs(was, specs[..index], inputs[..])
    {
      var spec := specs[index];
      ghost var before := specs[..index];
      assert specs[..index + 1] == before + [spec];
      assert spec in specs;
      var colon := SplitOnce(spec, ':');
      if colon.None? { return Some(InvalidMapping(spec)); }
      var (backend, mapping) := colon.value;
      var equals := SplitOnce(mapping, '=');
      if equals.None? { return Some(InvalidMapping(spec)); }
      var (logical, physical) := equals.value;
      if logical !in columns { return Some(UnknownLogicalColumn(spec)); }
      if !ValidName(physical) { return Some(InvalidMapping(spec)); }
      FirstInputIsUnique(was, inputs[..], backend);
      var found := FirstInput(inputs[..], backend);
      if found.None? { return Some(MappingBackendNotFound(spec)); }
      var k := found.value;
      OneMore(was, before, inputs[..], spec, columns, k);
      if logical in inputs[k].columns {
        if MappingsOk(was, specs, columns) { MappingsOkForPrefix(was, specs, columns, index + 1); }
        return Some(DuplicateMapping(spec));
      }
      StillMapped(was, before, inputs[..], spec, k);
      ghost var mapped := inputs[..];
      inputs[k] := inputs[k].(columns := inputs[k].columns[logical := physical]);
      assert inputs[..] == mapped[k := mapped[k].(columns := mapped[k].columns[logical := physical])];
    }
    assert specs[..|specs|] == specs;
    return None;
  }

  /** The order of the mapping specs does not matter: neither to whether they apply nor to the result. */
  lemma MappingOrderIsIrrelevant(inputs: seq<ViewInput>, specs: seq<string>, specs': seq<string>,
                                 columns: map<string, string>, mapped: seq<ViewInput>)
    requires multiset(specs) == multiset(specs')
    ensures MappingsOk(inputs, specs, columns) <==> MappingsOk(inputs, specs', columns)
    ensures MappedAs(inputs, specs, mapped) <==> MappedAs(inputs, specs', mapped)
  {
    assert forall s :: s in specs <==> s in multiset(specs);
    assert forall s :: s in specs' <==> s in multiset(specs');
    DistinctKeysOfPermutation(specs, specs', MappingKey);
    forall k: nat ensures Added(inputs, specs, k) == Added(inputs, specs', k) {}
  }

  /** What the parsers accept satisfies the input clauses of configuration validation. */
  lemma MappedInputsAreValid(view: LogicalView, inputs: seq<ViewInput>, specs: seq<string>)
    requires forall c :: c in view.columns ==> ValidName(c)
    requires forall k :: 0 <= k < |inputs| ==> ValidInput(view, inputs[k])
    requires MappingsOk(inputs, specs, view.columns) && MappedAs(inputs, specs, view.inputs)
    ensures forall k :: 0 <= k < |inputs| ==> ValidInput(view, view.inputs[k])
  {
    forall k, l | 0 <= k < |inputs| && l in view.inputs[k].columns
      ensures ValidName(l) && ValidName(view.inputs[k].columns[l]) && l in view.columns
    {
      var m := view.inputs[k].columns;
      assert (l, m[l]) in Entries(m);
      if (l, m[l]) in Added(inputs, specs, k) {
        var s :| s in specs && GoesTo(inputs, s, k) && Entry(s) == (l, m[l]);
        assert MappingOk(inputs, s, view.columns);
      } else {
        assert (l, m[l]) in Entries(inputs[k].columns);
      }
    }
  }

  // ----- the whole view -----

  ghost predicate PrintsInputs(specs: seq<string>, inputs: seq<ViewInput>) {
    |specs| == |inputs| && forall i :: 0 <= i < |inputs| ==> specs[i] == PrintInput(inputs[i])
  }

  /** `entries` lists every mapping of every input once, in any order. */
  ghost predicate ListsMappings(entries: seq<(nat, string)>, inputs: seq<ViewInput>) {
    && (forall e :: e in entries ==> e.0 < |inputs| && e.1 in inputs[e.0].columns)
    && (forall k: nat, l :: k < |inputs| && l in inputs[k].columns ==> (k, l) in entries)
    && (forall i, j :: 0 <= i < j < |entries| ==> entries[i] != entries[j])
  }

  function MappingAt(inputs: seq<ViewInput>, e: (nat, string)): Mapping
    requires e.0 < |inputs| && e.1 in inputs[e.0].columns
  {
    Mapping(inputs[e.0].backend, e.1, inputs[e.0].columns[e.1])
  }

  ghost predicate PrintsEntries(specs: seq<string>, inputs: seq<ViewInput>, entries: seq<(nat, string)>) {
    && ListsMappings(entries, inputs)
    && |specs| == |entries|
    && forall i :: 0 <= i < |entries| ==>
         entries[i] in entries && specs[i] == PrintMapping(MappingAt(inputs, entries[i]))
  }

  ghost predicate PrintsMappings(specs: seq<string>, inputs: seq<ViewInput>) {
    exists entries :: PrintsEntries(specs, inputs, entries)
  }

  function Bare(inputs: seq<ViewInput>): (bare: seq<ViewInput>)
    ensures |bare| == |inputs|
    ensures forall i :: 0 <= i < |inputs| ==> bare[i] == inputs[i].(columns := map[])
  {
    seq(|inputs|, i requires 0 <= i < |inputs| => inputs[i].(columns := map[]))
  }

  lemma FirstBareInput(inputs: seq<ViewInput>, k: nat)
    requires DistinctInputs(inputs) && k < |inputs|
    ensures FirstInput(Bare(inputs), inputs[k].backend) == Some(k)
  {
  }

  /** What a printed mapping parses to and which input it goes to. */
  lemma PrintedSpec(view: LogicalView, specs: seq<string>, entries: seq<(nat, string)>, i: nat)
    requires ValidView(view)
    requires PrintsEntries(specs, view.inputs, entries) && i < |specs|
    ensures entries[i].0 < |view.inputs| && entries[i].1 in view.inputs[entries[i].0].columns
    ensures ParseMapping(specs[i]) == Some(MappingAt(view.inputs, entries[i]))
    ensures GoesTo(Bare(view.inputs), specs[i], entries[i].0)
    ensures MappingOk(Bare(view.inputs), specs[i], view.columns)
  {
    var (k, l) := entries[i];
    assert entries[i] in entries;
    assert ValidInput(view, view.inputs[k]);
    ValidNameIsPlain(view.inputs[k].backend);
    ValidNameIsPlain(l);
    MappingRoundTrip(MappingAt(view.inputs, entries[i]));
    FirstBareInput(view.inputs, k);
  }

  lemma MappingsRoundTrip(view: LogicalView, specs: seq<string>)
    requires ValidView(view)
    requires PrintsMappings(specs, view.inputs)
    ensures MappingsOk(Bare(view.inputs), specs, view.columns)
    ensures MappedAs(Bare(view.inputs), specs, view.inputs)
  {
    var entries :| PrintsEntries(specs, view.inputs, entries);
    PrintedMappingsApply(view, specs, entries);
    forall k | 0 <= k < |view.inputs|
      ensures MappedInput(Bare(view.inputs), specs, k, view.inputs[k])
    {
      AddedIsPrinted(view, specs, entries, k);
    }
  }

  lemma PrintedMappingsApply(view: LogicalView, specs: seq<string>, entries: seq<(nat, string)>)
    requires ValidView(view)
    requires PrintsEntries(specs, view.inputs, entries)
    ensures MappingsOk(Bare(view.inputs), specs, view.columns)
  {
    forall s | s in specs ensures MappingOk(Bare(view.inputs), s, view.columns) {
      var i :| 0 <= i < |specs| && specs[i] == s;
      PrintedSpec(view, specs, entries, i);
    }
    forall i, j | 0 <= i < j < |specs| ensures MappingKey(specs[i]) != MappingKey(specs[j]) {
      PrintedKeysDiffer(view, specs, entries, i, j);
    }
  }

  lemma PrintedKeysDiffer(view: LogicalView, specs: seq<string>, entries: seq<(nat, string)>, i: nat, j: nat)
    requires ValidView(view)
    requires PrintsEntries(specs, view.inputs, entries) && i < j < |specs|
    ensures MappingKey(specs[i]) != MappingKey(specs[j])
  {
    PrintedSpec(view, specs, entries, i);
    PrintedSpec(view, specs, entries, j);
    MappingKeyIsInjective(specs[i], specs[j]);
  }

  lemma AddedIsPrinted(view: LogicalView, specs: seq<string>, entries: seq<(nat, string)>, k: nat)
    requires ValidView(view)
    requires PrintsEntries(specs, view.inputs, entries) && k < |view.inputs|
    ensures Added(Bare(view.inputs), specs, k) == Entries(view.inputs[k].columns)
  {
    var bare, m := Bare(view.inputs), view.inputs[k].columns;
    forall e | e in Added(bare, specs, k) ensures e in Entries(m) {
      var s :| s in specs && GoesTo(bare, s, k) && Entry(s) == e;
      var i :| 0 <= i < |specs| && specs[i] == s;
      PrintedSpec(view, specs, entries, i);
    }
    forall e | e in Entries(m) ensures e in Added(bare, specs, k) {
      assert (k, e.0) in entries;
      var i :| 0 <= i < |entries| && entries[i] == (k, e.0);
      PrintedSpec(view, specs, entries, i);
      assert specs[i] in specs && Entry(specs[i]) == e;
    }
  }

  /** The arguments of `view add`. */
  datatype ViewArgs = ViewArgs(
    name: string, inputs: seq<string>, columns: seq<string>, mappings: seq<string>,
    mode: ViewMode, missingSourcePolicy: MissingSourcePolicy, sourceColumn: Option<string>, enabled: bool)

  const InputKey: string -> string := (spec: string) =>
    match ParseViewInput(spec) case Some(input) => input.backend case None => ""

  ghost predicate InputSpecsOk(specs: seq<string>) {
    (forall i :: 0 <= i < |specs| ==> ParseViewInput(specs[i]).Some?) && DistinctKeys(specs, InputKey)
  }

  ghost function ParsedInputs(specs: seq<string>): (inputs: seq<ViewInput>)
    requires InputSpecsOk(specs)
  {
    seq(|specs|, i requires 0 <= i < |specs| => ParseViewInput(specs[i]).value)
  }

  /** `view` is what the arguments say, and they say it without mistakes. */
  ghost predicate ParsesTo(args: ViewArgs, view: LogicalView) {
    && ParseQualifiedViewName(args.name) == Some((view.schema, view.name))
    && InputSpecsOk(args.inputs)
    && ColumnSpecsOk(args.columns)
    && Declares(args.columns, view.columns)
    && (args.mappings != [] ==> |view.columns| > 0)
    && MappingsOk(ParsedInputs(args.inputs), args.mappings, view.columns)
    && MappedAs(ParsedInputs(args.inputs), args.mappings, view.inputs)
    && (view.sourceColumn.Some? ==> ValidName(view.sourceColumn.value))
    && view.sourceColumn == args.sourceColumn
    && view.mode == args.mode
    && view.missingSourcePolicy == args.missingSourcePolicy
    && view.enabled == args.enabled
  }

  lemma ParsesToIsUnique(args: ViewArgs, view: LogicalView, view': LogicalView)
    requires ParsesTo(args, view) && ParsesTo(args, view')
    ensures view == view'
  {
    MapOfEntries(view.columns, view'.columns);
    MappedIsUnique(ParsedInputs(args.inputs), args.mappings, view.inputs, view'.inputs);
  }

  /** The arguments spell `view`: its name, inputs, columns and mappings printed, columns and
      mappings in any order. */
  ghost predicate Spells(args: ViewArgs, view: LogicalView) {
    && (args.name == view.QualifiedName() || (args.name == view.name && view.schema == DEFAULT_VIEW_SCHEMA))
    && PrintsInputs(args.inputs, view.inputs)
    && PrintsColumns(args.columns, view.columns)
    && PrintsMappings(args.mappings, view.inputs)
    && args.sourceColumn == view.sourceColumn
    && args.mode == view.mode
    && args.missingSourcePolicy == view.missingSourcePolicy
    && args.enabled == view.enabled
  }

  lemma InputSpecAt(view: LogicalView, specs: seq<string>, i: nat)
    requires ValidView(view) && PrintsInputs(specs, view.inputs) && i < |specs|
    ensures ParseViewInput(specs[i]) == Some(Bare(view.inputs)[i]) && InputKey(specs[i]) == view.inputs[i].backend
  {
    assert ValidInput(view, view.inputs[i]);
    InputRoundTrip(view.inputs[i]);
  }

  lemma InputsRoundTrip(view: LogicalView, specs: seq<string>)
    requires ValidView(view) && PrintsInputs(specs, view.inputs)
    ensures InputSpecsOk(specs) && ParsedInputs(specs) == Bare(view.inputs)
  {
    forall i | 0 <= i < |specs|
      ensures ParseViewInput(specs[i]) == Some(Bare(view.inputs)[i])
      ensures InputKey(specs[i]) == view.inputs[i].backend
    {
      InputSpecAt(view, specs, i);
    }
  }

  /** Printing a valid view as arguments and parsing them gives the view back, and nothing else. */
  lemma ViewRoundTrip(args: ViewArgs, view: LogicalView, parsed: LogicalView)
    requires ValidView(view) && Spells(args, view)
    ensures ParsesTo(args, parsed) <==> parsed == view
  {
    ParseQualifiedViewNameMeaning(args.name, view.schema, view.name);
    InputsRoundTrip(view, args.inputs);
    ColumnsRoundTrip(args.columns, view.columns);
    MappingsRoundTrip(view, args.mappings);
    if args.mappings != [] {
      assert args.mappings[0] in args.mappings;
      assert exists c :: c in view.columns;
    }
    assert ParsesTo(args, view);
    if ParsesTo(args, parsed) { ParsesToIsUnique(args, view, parsed); }
  }

  /** What the parsers accept is valid as far as they look: only the data types, the clash of the
      source column with a logical column, and the absence of inputs are left to validation. */
  lemma ParsedViewIsValid(args: ViewArgs, view: LogicalView)
    requires ParsesTo(args, view)
    ensures ValidView(view) <==>
            && (forall c :: c in view.columns ==> ValidDataType(view.columns[c]))
            && (view.sourceColumn.Some? ==> view.sourceColumn.value !in view.columns)
            && args.inputs != []
  {
    ParseQualifiedViewNameMeaning(args.name, view.schema, view.name);
    DeclaredColumnsAreNamed(args.columns, view.columns);
    ParsedInputsAreValid(args.inputs, view);
    MappedInputsAreValid(view, ParsedInputs(args.inputs), args.mappings);
  }

  lemma DeclaredColumnsAreNamed(specs: seq<string>, columns: map<string, string>)
    requires ColumnSpecsOk(specs) && Declares(specs, columns)
    ensures forall c :: c in columns ==> ValidName(c)
  {
    forall c | c in columns ensures ValidName(c) {
      assert (c, columns[c]) in Entries(columns);
      var s :| s in specs && ColumnEntry(s) == (c, columns[c]);
    }
  }

  lemma ParsedInputsAreValid(specs: seq<string>, view: LogicalView)
    requires InputSpecsOk(specs)
    ensures forall k :: 0 <= k < |specs| ==> ValidInput(view, ParsedInputs(specs)[k])
    ensures DistinctInputs(ParsedInputs(specs))
  {
  }

  /** The parsing half of `view add`. */
  method ParseView(args: ViewArgs) returns (r: Result<LogicalView, SpecError>)
    ensures r.Success? ==> ParsesTo(args, r.value)
    ensures r.Failure? ==> forall view :: !ParsesTo(args, view)
  {
    var pair := ParseQualifiedViewName(args.name);
    if pair.None? { return Failure(InvalidViewName); }
    var (schema, name) := pair.value;
    var inputs, error := ParseInputs(args.inputs);
    if error.Some? { return Failure(error.value); }
    ghost var bare := inputs[..];
    assert bare == ParsedInputs(args.inputs);
    var columns := ParseColumns(args.columns);
    if columns.Failure? { return Failure(columns.error); }
    forall view: LogicalView | Declares(args.columns, view.columns) ensures view.columns == columns.value {
      MapOfEntries(view.columns, columns.value);
    }
    if args.mappings != [] && |columns.value| == 0 { return Failure(SchemaRequired); }
    error := ApplyMappings(inputs, args.mappings, columns.value);
    if error.Some? { return Failure(error.value); }
    if args.sourceColumn.Some? && !ValidName(args.sourceColumn.value) { return Failure(InvalidSourceColumn); }
    return Success(LogicalView(name, schema, args.enabled, args.mode, args.missingSourcePolicy, args.sourceColumn,
                               columns.value, inputs[..]));
  }

  method ParseInputs(specs: seq<string>) returns (inputs: array<ViewInput>, error: Option<SpecError>)
    ensures fresh(inputs)
    ensures error.None? <==> InputSpecsOk(specs)
    ensures error.None? ==> inputs[..] == ParsedInputs(specs)
  {
    inputs := new ViewInput[|specs|](_ => ViewInput("", "", map[]));
    for index := 0 to |specs|
      invariant forall i :: 0 <= i < index ==> ParseViewInput(specs[i]) == Some(inputs[i])
    {
      var input := ParseViewInput(specs[index]);
      if input.None? { return inputs, Some(InvalidInput(specs[index])); }
      inputs[index] := input.value;
    }
    DistinctInputsAreKeyed(specs, inputs[..]);
    var repeated := RepeatedInput(inputs[..]);
    if repeated.Some? { return inputs, Some(DuplicateInput(repeated.value)); }
    return inputs, None;
  }

  lemma DistinctInputsAreKeyed(specs: seq<string>, inputs: seq<ViewInput>)
    requires |specs| == |inputs|
    requires forall i :: 0 <= i < |specs| ==> ParseViewInput(specs[i]) == Some(inputs[i])
    ensures DistinctInputs(inputs) <==> DistinctKeys(specs, InputKey)
  {
  }

  method RepeatedInput(inputs: seq<ViewInput>) returns (repeated: Option<string>)
    ensures repeated.None? <==> DistinctInputs(inputs)
  {
    for index := 0 to |inputs|
      invariant forall i, j :: 0 <= i < j < index ==> inputs[i].backend != inputs[j].backend
    {
      if exists k :: 0 <= k < index && inputs[k].backend == inputs[index].backend {
        return Some(inputs[index].backend);
      }
    }
    return None;
  }
}
