/** `compile_view`: from a logical view over possibly missing sources to the text that creates it. */
module ViewCompiler {
  import opened Wrappers
  import opened Lists
  import opened Strings
  import opened Sorting
  import opened Commands
  import opened Config
  import opened SqlText
  import opened SqlGrammar
  import opened SqlPrinting

  datatype SkipReason = NotRegistered | Disabled

  datatype SkippedSource = SkippedSource(name: string, reason: SkipReason)

  datatype Availability = IsDisabled | Unavailable | Ready

  datatype ViewStatus = ViewStatus(
    name: string, enabled: bool, status: Availability, resolvedSources: seq<string>, skippedSources: seq<SkippedSource>)

  datatype CompiledView = CompiledView(status: ViewStatus, createSql: Option<string>)

  datatype CompileError =
    | SchemaConflict(schema: string)
    | RequiresUnregistered(backend: string)
    | RequiresDisabled(backend: string)
    | WrongRelation(backend: string)

  // ----- resolution -----

  /** The input takes part in the statement. */
  predicate IsResolved(config: Configuration, input: ViewInput) {
    var backend := FindBackend(config.backends, input.backend);
    backend.Some? && backend.value.enabled
  }

  /** The input does not keep the view from compiling. */
  predicate InputOk(config: Configuration, view: LogicalView, input: ViewInput) {
    match FindBackend(config.backends, input.backend)
    case None => view.missingSourcePolicy == Skip
    case Some(backend) =>
      if !backend.enabled then view.missingSourcePolicy == Skip
      else backend.kind == Parquet ==> input.relation == backend.Relation()
  }

  predicate SchemaTaken(config: Configuration, view: LogicalView) {
    exists b :: b in config.backends && b.enabled && b.name == view.schema
  }

  predicate Compiles(config: Configuration, view: LogicalView) {
    view.enabled ==> !SchemaTaken(config, view) && forall i :: i in view.inputs ==> InputOk(config, view, i)
  }

  predicate ViewsCompile(config: Configuration) { forall v :: v in config.views ==> Compiles(config, v) }

  function ResolvedInputs(config: Configuration, inputs: seq<ViewInput>): seq<ViewInput> {
    if inputs == [] then []
    else
      var last := inputs[|inputs| - 1];
      ResolvedInputs(config, inputs[..|inputs| - 1]) + if IsResolved(config, last) then [last] else []
  }

  function SkipOf(config: Configuration, input: ViewInput): SkippedSource {
    SkippedSource(input.backend, if FindBackend(config.backends, input.backend).None? then NotRegistered else Disabled)
  }

  function SkippedInputs(config: Configuration, inputs: seq<ViewInput>): seq<SkippedSource> {
    if inputs == [] then []
    else
      var last := inputs[|inputs| - 1];
      SkippedInputs(config, inputs[..|inputs| - 1]) + if IsResolved(config, last) then [] else [SkipOf(config, last)]
  }

  function BackendsOf(inputs: seq<ViewInput>): (r: seq<string>)
    ensures |r| == |inputs| && forall i :: 0 <= i < |inputs| ==> r[i] == inputs[i].backend
  {
    seq(|inputs|, i requires 0 <= i < |inputs| => inputs[i].backend)
  }

  // ----- the statement -----

  function Physical(input: ViewInput, logical: string): string {
    if logical in input.columns then input.columns[logical] else logical
  }

  function ColumnType(view: LogicalView, logical: string): string {
    if logical in view.columns then view.columns[logical] else ""
  }

  function CastOf(view: LogicalView, input: ViewInput, logical: string): Item<string> {
    Cast(Physical(input, logical), ColumnType(view, logical), logical)
  }

  function TagsOf(view: LogicalView, input: ViewInput): seq<Item<string>> {
    match view.sourceColumn case Some(column) => [Tag(input.backend, column)] case None => []
  }

  function ColumnNames(view: LogicalView): seq<string> { SortedKeys(view.columns.Keys) }

  function CastsOf(view: LogicalView, input: ViewInput, names: seq<string>): (r: seq<Item<string>>)
    ensures |r| == |names| && forall i :: 0 <= i < |names| ==> r[i] == CastOf(view, input, names[i])
  {
    seq(|names|, i requires 0 <= i < |names| => CastOf(view, input, names[i]))
  }

  function ColumnsOf(view: LogicalView, input: ViewInput): seq<Item<string>> {
    if |view.columns| == 0 then [Star] else CastsOf(view, input, ColumnNames(view))
  }

  function SourceOf(input: ViewInput): seq<string> { [input.backend] + Split(input.relation, '.') }

  function SelectOf(view: LogicalView, input: ViewInput): Select<string> {
    Select(TagsOf(view, input) + ColumnsOf(view, input), SourceOf(input))
  }

  function BranchOf(view: LogicalView, input: ViewInput): Branch<string> {
    Branch(view.mode == UnionAllByName, SelectOf(view, input))
  }

  function BranchesOf(view: LogicalView, inputs: seq<ViewInput>): (r: seq<Branch<string>>)
    ensures |r| == |inputs| && forall i :: 0 <= i < |inputs| ==> r[i] == BranchOf(view, inputs[i])
  {
    seq(|inputs|, i requires 0 <= i < |inputs| => BranchOf(view, inputs[i]))
  }

  function ScriptOf(view: LogicalView, inputs: seq<ViewInput>): ViewScript<string>
    requires inputs != []
  {
    ViewScript(view.schema, view.schema, view.name, SelectOf(view, inputs[0]), BranchesOf(view, inputs[1..]))
  }

  /** The compiled view, when there is one. */
  function Compiled(config: Configuration, view: LogicalView): CompiledView {
    if !view.enabled then
      CompiledView(ViewStatus(view.QualifiedName(), false, IsDisabled, [], []), None)
    else
      var inputs := ResolvedInputs(config, view.inputs);
      CompiledView(
        ViewStatus(view.QualifiedName(), true, if inputs == [] then Unavailable else Ready,
                   BackendsOf(inputs), SkippedInputs(config, view.inputs)),
        if inputs == [] then None else Some(Text(ScriptPieces(ScriptOf(view, inputs)))))
  }

  // ----- the text, as it is formatted -----

  function ItemText(item: Item<string>): string {
    match item
    case Tag(value, column) => "'" + EscapeLiteral(value) + "' AS " + QuoteIdent(column)
    case Cast(physical, dataType, logical) =>
      "CAST(" + QuoteIdent(physical) + " AS " + dataType + ") AS " + QuoteIdent(logical)
    case Star => "*"
  }

  function SourceRelation(backend: string, relation: string): string {
    Join([QuoteIdent(backend)] + Map(QuoteIdent, Split(relation, '.')), ".")
  }

  function SelectText(s: Select<string>): string {
    "SELECT " + Join(Map(ItemText, s.items), ", ") + " FROM " + Join(Map(QuoteIdent, s.source), ".")
  }

  function Operator(mode: ViewMode): string {
    if mode == UnionAllByName then " UNION ALL BY NAME " else " UNION ALL "
  }

  lemma ItemTextIsRight(item: Item<string>)
    ensures Text(ItemPieces(item)) == ItemText(item)
  {
    match item
    case Tag(value, column) =>
      TextOfOne(Name(column));
      TextThen(AS_TEXT, [Name(column)]);
      TextThen(Value(value), [AS_TEXT] + [Name(column)]);
      assert [Value(value)] + ([AS_TEXT] + [Name(column)]) == ItemPieces(item);
      assert "' AS " == "'" + AS_TEXT.text;
    case Cast(physical, dataType, logical) =>
      CastText(physical, dataType, logical);
    case Star => TextOfOne(STAR_TEXT);
  }

  lemma CastText(physical: string, dataType: string, logical: string)
    ensures Text([CAST_TEXT, Name(physical), TypeText(dataType), Name(logical)]) ==
            "CAST(" + QuoteIdent(physical) + " AS " + dataType + ") AS " + QuoteIdent(logical)
  {
    var type_ := TypeText(dataType);
    TextOfOne(Name(logical));
    TextThen(type_, [Name(logical)]);
    TextThen(Name(physical), [type_] + [Name(logical)]);
    TextThen(CAST_TEXT, [Name(physical)] + ([type_] + [Name(logical)]));
    assert [CAST_TEXT] + ([Name(physical)] + ([type_] + [Name(logical)])) ==
           [CAST_TEXT, Name(physical), type_, Name(logical)];
    JoinCast("CAST(", QuoteIdent(physical), " AS ", dataType, ") AS ", QuoteIdent(logical));
  }

  lemma JoinCast(a: string, b: string, c: string, d: string, e: string, f: string)
    ensures a + (b + ((c + d + e) + f)) == a + b + c + d + e + f
  {
  }

  lemma {:induction false} ItemsTextIsRight(items: seq<Item<string>>)
    ensures Text(ItemsPieces(items)) == Join(Map(ItemText, items), ", ")
  {
    if items != [] {
      ItemTextIsRight(items[0]);
      if |items| > 1 {
        ItemsTextIsRight(items[1..]);
        assert Map(ItemText, items)[1..] == Map(ItemText, items[1..]);
        TextThen(COMMA_TEXT, ItemsPieces(items[1..]));
        PiecesOfConcat(ItemPieces(items[0]), [COMMA_TEXT] + ItemsPieces(items[1..]));
      }
    }
  }

  lemma {:induction false} PathTextIsRight(path: seq<string>)
    ensures Text(PathPieces(path)) == Join(Map(QuoteIdent, path), ".")
  {
    if |path| == 1 {
      TextOfOne(Name(path[0]));
    } else if |path| > 1 {
      PathTextIsRight(path[1..]);
      assert Map(QuoteIdent, path)[1..] == Map(QuoteIdent, path[1..]);
      TextThen(DOT_TEXT, PathPieces(path[1..]));
      TextThen(Name(path[0]), [DOT_TEXT] + PathPieces(path[1..]));
    }
  }

  lemma SelectTextIsRight(s: Select<string>)
    ensures Text(SelectPieces(s)) == SelectText(s)
  {
    var tail := [FROM_TEXT] + PathPieces(s.source);
    ItemsTextIsRight(s.items);
    PathTextIsRight(s.source);
    TextThen(FROM_TEXT, PathPieces(s.source));
    PiecesOfConcat(ItemsPieces(s.items), tail);
    TextThen(SELECT_TEXT, ItemsPieces(s.items) + tail);
  }

  function SelectTexts(view: LogicalView, inputs: seq<ViewInput>): (r: seq<string>)
    ensures |r| == |inputs| && forall i :: 0 <= i < |inputs| ==> r[i] == SelectText(SelectOf(view, inputs[i]))
  {
    seq(|inputs|, i requires 0 <= i < |inputs| => SelectText(SelectOf(view, inputs[i])))
  }

  /** The selects from the first to the end of the statement. */
  function BodyPieces(view: LogicalView, inputs: seq<ViewInput>): seq<Piece>
    requires inputs != []
  {
    SelectPieces(SelectOf(view, inputs[0])) + (BranchesPieces(BranchesOf(view, inputs[1..])) + [END_TEXT])
  }

  lemma {:induction false} BodyTextIsRight(view: LogicalView, inputs: seq<ViewInput>)
    requires inputs != []
    ensures Text(BodyPieces(view, inputs)) == Join(SelectTexts(view, inputs), Operator(view.mode)) + ";"
  {
    SelectTextIsRight(SelectOf(view, inputs[0]));
    if |inputs| == 1 {
      LastBodyText(view, inputs);
    } else {
      BodyTextIsRight(view, inputs[1..]);
      NextBodyText(view, inputs);
    }
  }

  lemma NextBodyText(view: LogicalView, inputs: seq<ViewInput>)
    requires |inputs| > 1
    requires Text(BodyPieces(view, inputs[1..])) == Join(SelectTexts(view, inputs[1..]), Operator(view.mode)) + ";"
    ensures Text(BodyPieces(view, inputs)) == Join(SelectTexts(view, inputs), Operator(view.mode)) + ";"
  {
    var (first, rest) := (SelectPieces(SelectOf(view, inputs[0])), BodyPieces(view, inputs[1..]));
    var union := UnionText(view.mode == UnionAllByName);
    NextBodyPieces(view, inputs);
    SelectTextIsRight(SelectOf(view, inputs[0]));
    TextThen(union, rest);
    PiecesOfConcat(first, [union] + rest);
    assert SelectTexts(view, inputs)[1..] == SelectTexts(view, inputs[1..]);
    JoinNext(SelectText(SelectOf(view, inputs[0])), Operator(view.mode),
             Join(SelectTexts(view, inputs[1..]), Operator(view.mode)), ";");
  }

  lemma JoinNext(a: string, b: string, c: string, d: string)
    ensures a + (b + (c + d)) == a + b + c + d
  {
  }

  lemma LastBodyText(view: LogicalView, inputs: seq<ViewInput>)
    requires |inputs| == 1
    ensures Text(BodyPieces(view, inputs)) == Text(SelectPieces(SelectOf(view, inputs[0]))) + ";"
  {
    assert BranchesOf(view, inputs[1..]) == [];
    assert BranchesPieces([]) + [END_TEXT] == [END_TEXT];
    TextOfOne(END_TEXT);
    PiecesOfConcat(SelectPieces(SelectOf(view, inputs[0])), [END_TEXT]);
  }

  lemma NextBodyPieces(view: LogicalView, inputs: seq<ViewInput>)
    requires |inputs| > 1
    ensures BodyPieces(view, inputs) ==
            SelectPieces(SelectOf(view, inputs[0]))
            + ([UnionText(view.mode == UnionAllByName)] + BodyPieces(view, inputs[1..]))
  {
    var rest := BranchesOf(view, inputs[1..]);
    assert rest[1..] == BranchesOf(view, inputs[1..][1..]);
    assert rest[0] == BranchOf(view, inputs[1]);
    FirstBranchPieces(rest);
  }

  lemma ScriptTextIsRight(view: LogicalView, inputs: seq<ViewInput>)
    requires inputs != []
    ensures Text(ScriptPieces(ScriptOf(view, inputs))) ==
            "CREATE SCHEMA IF NOT EXISTS " + QuoteIdent(view.schema) + ";\nCREATE VIEW " + QuoteIdent(view.schema) + "."
            + QuoteIdent(view.name) + " AS " + Join(SelectTexts(view, inputs), Operator(view.mode)) + ";"
  {
    BodyTextIsRight(view, inputs);
    HeaderText(view.schema, view.schema, view.name, BodyPieces(view, inputs));
  }

  // ----- compile_view -----

  /** The columns of one input's projection, in key order. */
  method CompileColumns(view: LogicalView, input: ViewInput) returns (projection: seq<string>)
    ensures projection == Map(ItemText, ColumnsOf(view, input))
  {
    if |view.columns| == 0 {
      return [ItemText(Star)];
    }
    projection := CompileCasts(view, input, ColumnNames(view));
  }

  method CompileCasts(view: LogicalView, input: ViewInput, names: seq<string>) returns (projection: seq<string>)
    requires forall n :: n in names ==> n in view.columns
    ensures projection == Map(ItemText, CastsOf(view, input, names))
  {
    projection := [];
    for index := 0 to |names|
      invariant |projection| == index
      invariant forall i :: 0 <= i < index ==> projection[i] == ItemText(CastOf(view, input, names[i]))
    {
      var logical := names[index];
      var physical := if logical in input.columns then input.columns[logical] else logical;
      var item := Cast(physical, view.columns[logical], logical);
      assert item == CastOf(view, input, logical);
      projection := projection + [ItemText(item)];
    }
  }

  /** One input's select: the source column, then the columns. */
  method CompileInput(view: LogicalView, input: ViewInput) returns (select: string)
    ensures select == SelectText(SelectOf(view, input))
  {
    var projection: seq<string> := [];
    if view.sourceColumn.Some? {
      projection := projection + [ItemText(Tag(input.backend, view.sourceColumn.value))];
    }
    assert projection == Map(ItemText, TagsOf(view, input));
    var columns := CompileColumns(view, input);
    projection := projection + columns;
    MapOfConcat(ItemText, TagsOf(view, input), ColumnsOf(view, input));
    QuotedSource(input);
    select := "SELECT " + Join(projection, ", ") + " FROM " + SourceRelation(input.backend, input.relation);
  }

  lemma QuotedSource(input: ViewInput)
    ensures Join(Map(QuoteIdent, SourceOf(input)), ".") == SourceRelation(input.backend, input.relation)
  {
    MapOfConcat(QuoteIdent, [input.backend], Split(input.relation, '.'));
    assert Map(QuoteIdent, [input.backend]) == [QuoteIdent(input.backend)];
  }

  /** Why a view does not compile. */
  ghost predicate Explains(e: CompileError, config: Configuration, view: LogicalView) {
    match e
    case SchemaConflict(schema) => schema == view.schema && SchemaTaken(config, view)
    case RequiresUnregistered(b) =>
      view.missingSourcePolicy == Error && b in BackendsOf(view.inputs) && FindBackend(config.backends, b).None?
    case RequiresDisabled(b) =>
      && view.missingSourcePolicy == Error
      && b in BackendsOf(view.inputs)
      && FindBackend(config.backends, b).Some? && !FindBackend(config.backends, b).value.enabled
    case WrongRelation(b) =>
      exists i :: i in view.inputs && i.backend == b && IsResolved(config, i) && !InputOk(config, view, i)
  }

  /** What the loop has pushed after the inputs seen so far. */
  ghost predicate Pushed(config: Configuration, view: LogicalView, seen: seq<ViewInput>, selects: seq<string>,
                         resolved: seq<string>, skipped: seq<SkippedSource>) {
    && selects == SelectTexts(view, ResolvedInputs(config, seen))
    && resolved == BackendsOf(ResolvedInputs(config, seen))
    && skipped == SkippedInputs(config, seen)
  }

  lemma {:induction false} ResolvedSnoc(config: Configuration, seen: seq<ViewInput>, input: ViewInput)
    ensures ResolvedInputs(config, seen + [input]) ==
            ResolvedInputs(config, seen) + if IsResolved(config, input) then [input] else []
    ensures SkippedInputs(config, seen + [input]) ==
            SkippedInputs(config, seen) + if IsResolved(config, input) then [] else [SkipOf(config, input)]
  {
    assert (seen + [input])[..|seen|] == seen;
  }

  lemma PushedResolved(config: Configuration, view: LogicalView, seen: seq<ViewInput>, selects: seq<string>,
                       resolved: seq<string>, skipped: seq<SkippedSource>, input: ViewInput)
    requires Pushed(config, view, seen, selects, resolved, skipped) && IsResolved(config, input)
    ensures Pushed(config, view, seen + [input], selects + [SelectText(SelectOf(view, input))],
                   resolved + [input.backend], skipped)
  {
    ResolvedSnoc(config, seen, input);
  }

  lemma PushedSkipped(config: Configuration, view: LogicalView, seen: seq<ViewInput>, selects: seq<string>,
                      resolved: seq<string>, skipped: seq<SkippedSource>, input: ViewInput)
    requires Pushed(config, view, seen, selects, resolved, skipped) && !IsResolved(config, input)
    ensures Pushed(config, view, seen + [input], selects, resolved, skipped + [SkipOf(config, input)])
  {
    ResolvedSnoc(config, seen, input);
  }

  /** The error one input stops the compilation with. */
  function ErrorOf(config: Configuration, input: ViewInput): CompileError {
    match FindBackend(config.backends, input.backend)
    case None => RequiresUnregistered(input.backend)
    case Some(backend) => if backend.enabled then WrongRelation(input.backend) else RequiresDisabled(input.backend)
  }

  lemma StopsAt(config: Configuration, view: LogicalView, index: nat)
    requires view.enabled && index < |view.inputs| && !InputOk(config, view, view.inputs[index])
    ensures !Compiles(config, view) && Explains(ErrorOf(config, view.inputs[index]), config, view)
  {
  }

  /** The statement that creates the view, if some input was resolved. */
  method CreateStatement(view: LogicalView, ghost inputs: seq<ViewInput>, selects: seq<string>)
    returns (createSql: Option<string>)
    requires selects == SelectTexts(view, inputs)
    ensures createSql == if inputs == [] then None else Some(Text(ScriptPieces(ScriptOf(view, inputs))))
  {
    if selects == [] { return None; }
    ScriptTextIsRight(view, inputs);
    var operator := if view.mode == UnionAll then " UNION ALL " else " UNION ALL BY NAME ";
    assert operator == Operator(view.mode);
    return Some("CREATE SCHEMA IF NOT EXISTS " + QuoteIdent(view.schema) + ";\nCREATE VIEW "
                + QuoteIdent(view.schema) + "." + QuoteIdent(view.name) + " AS " + Join(selects, operator) + ";");
  }

  /** The loop over a view's inputs: what each resolved one selects, and which sources were skipped. */
  method ResolveInputs(config: Configuration, view: LogicalView)
    returns (error: Option<CompileError>, selects: seq<string>, resolved: seq<string>, skipped: seq<SkippedSource>)
    requires view.enabled
    ensures error.None? ==> forall i :: i in view.inputs ==> InputOk(config, view, i)
    ensures error.None? ==> Pushed(config, view, view.inputs, selects, resolved, skipped)
    ensures error.Some? ==> !Compiles(config, view) && Explains(error.value, config, view)
  {
    selects, resolved, skipped := [], [], [];
    for index := 0 to |view.inputs|
      invariant forall i :: 0 <= i < index ==> InputOk(config, view, view.inputs[i])
      invariant Pushed(config, view, view.inputs[..index], selects, resolved, skipped)
    {
      var input := view.inputs[index];
      ghost var seen := view.inputs[..index];
      assert view.inputs[..index + 1] == seen + [input];
      var backend := FindBackend(config.backends, input.backend);
      if backend.None? {
        if view.missingSourcePolicy == Error {
          StopsAt(config, view, index);
          return Some(RequiresUnregistered(input.backend)), selects, resolved, skipped;
        }
        PushedSkipped(config, view, seen, selects, resolved, skipped, input);
        skipped := skipped + [SkippedSource(input.backend, NotRegistered)];
        continue;
      }
      if !backend.value.enabled {
        if view.missingSourcePolicy == Error {
          StopsAt(config, view, index);
          return Some(RequiresDisabled(input.backend)), selects, resolved, skipped;
        }
        PushedSkipped(config, view, seen, selects, resolved, skipped, input);
        skipped := skipped + [SkippedSource(input.backend, Disabled)];
        continue;
      }
      if backend.value.kind == Parquet && input.relation != backend.value.Relation() {
        StopsAt(config, view, index);
        return Some(WrongRelation(input.backend)), selects, resolved, skipped;
      }
      var select := CompileInput(view, input);
      PushedResolved(config, view, seen, selects, resolved, skipped, input);
      selects := selects + [select];
      resolved := resolved + [input.backend];
    }
    assert view.inputs[..|view.inputs|] == view.inputs;
    error := None;
  }

  method CompileView(config: Configuration, view: LogicalView) returns (r: Result<CompiledView, CompileError>)
    ensures r.Success? <==> Compiles(config, view)
    ensures r.Success? ==> r.value == Compiled(config, view)
    ensures r.Failure? ==> Explains(r.error, config, view)
  {
    if !view.enabled {
      return Success(CompiledView(ViewStatus(view.QualifiedName(), false, IsDisabled, [], []), None));
    }
    if exists b :: b in config.backends && b.enabled && b.name == view.schema {
      return Failure(SchemaConflict(view.schema));
    }
    var error, selects, resolved, skipped := ResolveInputs(config, view);
    if error.Some? { return Failure(error.value); }
    var createSql := CreateStatement(view, ResolvedInputs(config, view.inputs), selects);
    return Success(CompiledView(
      ViewStatus(view.QualifiedName(), true, if selects == [] then Unavailable else Ready, resolved, skipped),
      createSql));
  }

  /** `compile_views`: all of them, or the reason of the first that does not compile. */
  method CompileViews(config: Configuration) returns (r: Result<seq<CompiledView>, CompileError>)
    ensures r.Success? <==> ViewsCompile(config)
    ensures r.Success? ==>
              && |r.value| == |config.views|
              && forall i :: 0 <= i < |r.value| ==> r.value[i] == Compiled(config, config.views[i])
    ensures r.Failure? ==> exists i :: 0 <= i < |config.views| && Explains(r.error, config, config.views[i])
                                       && forall j :: 0 <= j < i ==> Compiles(config, config.views[j])
  {
    var compiled := [];
    for i := 0 to |config.views|
      invariant |compiled| == i
      invariant forall j :: 0 <= j < i ==>
                  Compiles(config, config.views[j]) && compiled[j] == Compiled(config, config.views[j])
    {
      var view := CompileView(config, config.views[i]);
      if view.Failure? { return Failure(view.error); }
      compiled := compiled + [view.value];
    }
    return Success(compiled);
  }

  // ----- what compiling depends on -----

  lemma CompilesIgnoresOrder(c: Configuration, d: Configuration, view: LogicalView)
    requires multiset(c.backends) == multiset(d.backends) && DistinctKeys(c.backends, BackendKey)
    ensures Compiles(c, view) <==> Compiles(d, view)
  {
    assert forall x :: x in c.backends <==> x in multiset(c.backends);
    assert forall x :: x in d.backends <==> x in multiset(d.backends);
    forall i | i in view.inputs ensures InputOk(c, view, i) <==> InputOk(d, view, i) {
      FindBackendIgnoresOrder(c.backends, d.backends, i.backend);
    }
  }

  /** The probe compiles the lists as the command has left them, the daemon as they were saved: it makes no
      difference. */
  lemma CompilingIgnoresOrder(c: Configuration, d: Configuration)
    requires SameListing(c, d) && DistinctKeys(c.backends, BackendKey)
    ensures ViewsCompile(c) <==> ViewsCompile(d)
  {
    assert forall v :: v in c.views <==> v in multiset(c.views);
    assert forall v :: v in d.views <==> v in multiset(d.views);
    forall v ensures Compiles(c, v) <==> Compiles(d, v) {
      CompilesIgnoresOrder(c, d, v);
    }
  }
}
