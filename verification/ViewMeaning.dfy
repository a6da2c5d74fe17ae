/** Compiling a view with declared columns preserves its meaning: the bag of rows that the emitted
    text denotes is the bag the view describes, for every content of the tables. */
module ViewMeaning {
  import opened Wrappers
  import opened Lists
  import opened Strings
  import opened Config
  import opened SqlText
  import opened SqlGrammar
  import opened SqlPrinting
  import opened SqlMeaning
  import opened ViewCompiler
  import opened ViewDescription

  // ----- one select -----

  predicate Declared(view: LogicalView) { |view.columns| > 0 && ValidView(view) }

  lemma HeaderIsDistinct(view: LogicalView)
    requires ValidView(view)
    ensures Distinct(Header(view))
    ensures forall c :: c in Header(view) <==> view.sourceColumn == Some(c) || c in view.columns
  {
  }

  /** The item of a select that gives one column of the view. */
  function ColumnItem(view: LogicalView, input: ViewInput, column: string): Item<seq<Token>> {
    if view.sourceColumn == Some(column) then Tag(input.backend, column)
    else
      Cast(ReadColumn(input, column), if column in view.columns then TypeTokens(view.columns[column]) else [], column)
  }

  function ViewItems(view: LogicalView, input: ViewInput): seq<Item<seq<Token>>> {
    ParsedSelect(SelectOf(view, input)).items
  }

  lemma CastItems(view: LogicalView, input: ViewInput, i: nat)
    requires Declared(view) && i < |ColumnNames(view)|
    ensures ColumnNames(view)[i] in view.columns
    ensures ParsedItem(ColumnsOf(view, input)[i]) == ColumnItem(view, input, ColumnNames(view)[i])
  {
    assert ColumnNames(view)[i] in ColumnNames(view);
    assert ColumnNames(view)[i] in view.columns.Keys;
    assert ColumnsOf(view, input)[i] == CastOf(view, input, ColumnNames(view)[i]);
  }

  function TagNames(view: LogicalView): seq<string> {
    match view.sourceColumn case Some(column) => [column] case None => []
  }

  lemma TagItems(view: LogicalView, input: ViewInput)
    ensures Map(ParsedItem, TagsOf(view, input)) == Map(c => ColumnItem(view, input, c), TagNames(view))
  {
  }

  lemma AllCastItems(view: LogicalView, input: ViewInput)
    requires Declared(view)
    ensures Map(ParsedItem, ColumnsOf(view, input)) == Map(c => ColumnItem(view, input, c), ColumnNames(view))
  {
    forall i | 0 <= i < |ColumnNames(view)|
      ensures ParsedItem(ColumnsOf(view, input)[i]) == ColumnItem(view, input, ColumnNames(view)[i])
    {
      CastItems(view, input, i);
    }
  }

  lemma ItemsOfView(view: LogicalView, input: ViewInput)
    requires Declared(view)
    ensures |ViewItems(view, input)| == |Header(view)|
    ensures forall i :: 0 <= i < |Header(view)| ==>
              ViewItems(view, input)[i] == ColumnItem(view, input, Header(view)[i])
  {
    var item := c => ColumnItem(view, input, c);
    TagItems(view, input);
    AllCastItems(view, input);
    MapOfConcat(ParsedItem, TagsOf(view, input), ColumnsOf(view, input));
    MapOfConcat(item, TagNames(view), ColumnNames(view));
    assert Header(view) == TagNames(view) + ColumnNames(view);
    assert ViewItems(view, input) == Map(item, Header(view));
  }

  lemma SelectBinds(view: LogicalView, input: ViewInput, db: Database)
    requires Declared(view)
    ensures Binds(ParsedSelect(SelectOf(view, input)), db) <==> Readable(view, input, db)
  {
    ItemsOfView(view, input);
    HeaderIsDistinct(view);
    if TablePath(input) in db {
      BindsByColumn(view, input, ViewItems(view, input), Header(view), db[TablePath(input)].header);
    }
  }

  /** `items` give the columns of `header`, which are the columns of the view. */
  ghost predicate ByColumn(view: LogicalView, input: ViewInput, items: seq<Item<seq<Token>>>, header: seq<string>) {
    && |items| == |header|
    && (forall i :: 0 <= i < |header| ==> items[i] == ColumnItem(view, input, header[i]))
    && (forall c :: c in header <==> view.sourceColumn == Some(c) || c in view.columns)
    && (view.sourceColumn.Some? ==> view.sourceColumn.value !in view.columns)
  }

  lemma BindsByColumn(view: LogicalView, input: ViewInput, items: seq<Item<seq<Token>>>, header: seq<string>,
                      columns: seq<string>)
    requires ByColumn(view, input, items, header)
    ensures (forall i :: 0 <= i < |items| ==> items[i].Cast? ==> items[i].physical in columns) <==>
            (forall c :: c in view.columns ==> ReadColumn(input, c) in columns)
  {
  }

  /** The values of a select's row, by position, are the values of the described row. */
  function OutputValues(view: LogicalView, input: ViewInput, row: Row, cast: Caster): seq<Datum> {
    Map(c => OutputValue(view, input, row, c, cast), Header(view))
  }

  lemma {:induction false} FlatOfOnes<S, T>(items: seq<S>, f: S -> seq<T>, values: seq<T>)
    requires |values| == |items|
    requires forall i :: 0 <= i < |items| ==> f(items[i]) == [values[i]]
    ensures Flat(Map(f, items)) == values
  {
    if items != [] {
      assert Map(f, items)[1..] == Map(f, items[1..]);
      FlatOfOnes(items[1..], f, values[1..]);
      assert values == [values[0]] + values[1..];
    }
  }

  lemma HeaderOfItems(view: LogicalView, input: ViewInput, items: seq<Item<seq<Token>>>, header: seq<string>,
                      table: Table)
    requires |items| == |header| && forall i :: 0 <= i < |header| ==> items[i] == ColumnItem(view, input, header[i])
    ensures Flat(Map(item => ItemHeader(item, table), items)) == header
  {
    FlatOfOnes(items, item => ItemHeader(item, table), header);
  }

  lemma SelectHeader(view: LogicalView, input: ViewInput, table: Table)
    requires Declared(view)
    ensures Flat(Map(item => ItemHeader(item, table), ViewItems(view, input))) == Header(view)
  {
    ItemsOfView(view, input);
    HeaderOfItems(view, input, ViewItems(view, input), Header(view), table);
  }

  lemma ValuesOfItems(view: LogicalView, input: ViewInput, items: seq<Item<seq<Token>>>, header: seq<string>,
                      table: Table, row: Row, cast: Caster)
    requires |items| == |header| && forall i :: 0 <= i < |header| ==> items[i] == ColumnItem(view, input, header[i])
    requires forall c :: c in header ==> view.sourceColumn == Some(c) || c in view.columns
    ensures Flat(Map(item => ItemValues(item, table, row, cast), items)) ==
            Map(c => OutputValue(view, input, row, c, cast), header)
  {
    FlatOfOnes(items, item => ItemValues(item, table, row, cast),
               Map(c => OutputValue(view, input, row, c, cast), header));
  }

  lemma SelectValues(view: LogicalView, input: ViewInput, table: Table, row: Row, cast: Caster)
    requires Declared(view)
    ensures RowValues(ParsedSelect(SelectOf(view, input)), table, row, cast) == OutputValues(view, input, row, cast)
  {
    ItemsOfView(view, input);
    HeaderIsDistinct(view);
    ValuesOfItems(view, input, ViewItems(view, input), Header(view), table, row, cast);
  }

  /** The relation one input's select denotes. */
  function InputRelation(view: LogicalView, input: ViewInput, db: Database, cast: Caster): Relation
    requires TablePath(input) in db
  {
    Relation(Header(view), Map(row => OutputValues(view, input, row, cast), db[TablePath(input)].rows))
  }

  lemma SelectRows(view: LogicalView, input: ViewInput, table: Table, cast: Caster)
    requires Declared(view)
    ensures var s := ParsedSelect(SelectOf(view, input));
            Map(row => RowValues(s, table, row, cast), table.rows) ==
            Map(row => OutputValues(view, input, row, cast), table.rows)
  {
    var s := ParsedSelect(SelectOf(view, input));
    forall row ensures RowValues(s, table, row, cast) == OutputValues(view, input, row, cast) {
      SelectValues(view, input, table, row, cast);
    }
  }

  lemma SelectMeaning(view: LogicalView, input: ViewInput, db: Database, cast: Caster)
    requires Declared(view)
    ensures EvalSelect(ParsedSelect(SelectOf(view, input)), db, cast) ==
            if Readable(view, input, db) then Some(InputRelation(view, input, db, cast)) else None
  {
    SelectBinds(view, input, db);
    if Readable(view, input, db) {
      SelectHeader(view, input, db[TablePath(input)]);
      SelectRows(view, input, db[TablePath(input)], cast);
    }
  }

  // ----- the whole statement -----

  /** The rows of all inputs, by position. */
  function AllValues(view: LogicalView, inputs: seq<ViewInput>, db: Database, cast: Caster): seq<seq<Datum>>
    requires AllReadable(view, inputs, db)
  {
    if inputs == [] then []
    else InputRelation(view, inputs[0], db, cast).rows + AllValues(view, inputs[1..], db, cast)
  }

  /** The branches denote the relations of the inputs. */
  ghost predicate BranchesDenote(view: LogicalView, inputs: seq<ViewInput>, branches: seq<Branch<seq<Token>>>,
                                 db: Database, cast: Caster) {
    && |branches| == |inputs|
    && forall i :: 0 <= i < |inputs| ==>
         EvalSelect(branches[i].select, db, cast) ==
         if Readable(view, inputs[i], db) then Some(InputRelation(view, inputs[i], db, cast)) else None
  }

  lemma {:induction false} BranchesMeaning(view: LogicalView, inputs: seq<ViewInput>, acc: Relation,
                                           branches: seq<Branch<seq<Token>>>, db: Database, cast: Caster)
    requires Distinct(Header(view))
    requires acc.header == Header(view) && Rectangular(acc)
    requires BranchesDenote(view, inputs, branches, db, cast)
    ensures EvalBranches(acc, branches, db, cast) ==
            if AllReadable(view, inputs, db)
            then Some(Relation(Header(view), acc.rows + AllValues(view, inputs, db, cast)))
            else None
  {
    if inputs == [] {
      assert acc.rows + [] == acc.rows;
    } else {
      AllReadableSplits(view, inputs, db);
      assert EvalSelect(branches[0].select, db, cast) ==
             if Readable(view, inputs[0], db) then Some(InputRelation(view, inputs[0], db, cast)) else None;
      if Readable(view, inputs[0], db) {
        var right := InputRelation(view, inputs[0], db, cast);
        var both := Relation(Header(view), acc.rows + right.rows);
        UnionsAgree(acc, right);
        NextBranch(acc, branches, right, both, db, cast);
        BranchesMeaning(view, inputs[1..], both, branches[1..], db, cast);
        if AllReadable(view, inputs, db) {
          RegroupRows(acc.rows, right.rows, AllValues(view, inputs[1..], db, cast));
        }
      }
    }
  }

  lemma {:induction false} NextBranch(acc: Relation, branches: seq<Branch<seq<Token>>>, right: Relation,
                                      both: Relation, db: Database,
                   cast: Caster)
    requires branches != [] && EvalSelect(branches[0].select, db, cast) == Some(right)
    requires SqlMeaning.UnionAllByName(acc, right) == SqlMeaning.UnionAll(acc, right) == Some(both)
    ensures EvalBranches(acc, branches, db, cast) == EvalBranches(both, branches[1..], db, cast)
  {
  }

  lemma AllReadableSplits(view: LogicalView, inputs: seq<ViewInput>, db: Database)
    requires inputs != []
    ensures AllReadable(view, inputs, db) <==> Readable(view, inputs[0], db) && AllReadable(view, inputs[1..], db)
  {
  }

  lemma RegroupRows(a: seq<seq<Datum>>, b: seq<seq<Datum>>, c: seq<seq<Datum>>)
    ensures a + b + c == a + (b + c)
  {
  }

  /** What the parsed script of a view denotes, in either union mode. */
  lemma {:induction false} ScriptMeaning(view: LogicalView, inputs: seq<ViewInput>, db: Database, cast: Caster)
    requires Declared(view) && inputs != []
    ensures EvalScript(ParsedScript(ScriptOf(view, inputs)), db, cast) ==
            if AllReadable(view, inputs, db) then Some(Relation(Header(view), AllValues(view, inputs, db, cast)))
            else None
  {
    ViewBranchesDenote(view, inputs[1..], db, cast);
    SelectMeaning(view, inputs[0], db, cast);
    HeaderIsDistinct(view);
    SelectsMeaning(view, inputs, ParsedScript(ScriptOf(view, inputs)), db, cast);
  }

  lemma {:induction false} SelectsMeaning(view: LogicalView, inputs: seq<ViewInput>, v: ViewScript<seq<Token>>,
                                          db: Database, cast: Caster)
    requires inputs != [] && Distinct(Header(view))
    requires EvalSelect(v.first, db, cast) ==
             if Readable(view, inputs[0], db) then Some(InputRelation(view, inputs[0], db, cast)) else None
    requires BranchesDenote(view, inputs[1..], v.rest, db, cast)
    ensures EvalScript(v, db, cast) ==
            if AllReadable(view, inputs, db) then Some(Relation(Header(view), AllValues(view, inputs, db, cast)))
            else None
  {
    AllReadableSplits(view, inputs, db);
    if Readable(view, inputs[0], db) {
      BranchesMeaning(view, inputs[1..], InputRelation(view, inputs[0], db, cast), v.rest, db, cast);
    }
  }

  lemma ViewBranchesDenote(view: LogicalView, inputs: seq<ViewInput>, db: Database, cast: Caster)
    requires Declared(view)
    ensures BranchesDenote(view, inputs, Map(ParsedBranch, BranchesOf(view, inputs)), db, cast)
  {
    forall i | 0 <= i < |inputs|
      ensures EvalSelect(Map(ParsedBranch, BranchesOf(view, inputs))[i].select, db, cast) ==
              if Readable(view, inputs[i], db) then Some(InputRelation(view, inputs[i], db, cast)) else None
    {
      SelectMeaning(view, inputs[i], db, cast);
    }
  }

  lemma NamedOutput(view: LogicalView, input: ViewInput, row: Row, cast: Caster)
    ensures Named(Header(view), OutputValues(view, input, row, cast)) == OutputRow(view, input, row, cast)
  {
  }

  lemma NamedInput(view: LogicalView, input: ViewInput, db: Database, cast: Caster)
    requires Readable(view, input, db)
    ensures Rectangular(InputRelation(view, input, db, cast))
    ensures NamedRows(InputRelation(view, input, db, cast)) == InputRows(view, input, db, cast)
  {
    var rows := db[TablePath(input)].rows;
    forall i | 0 <= i < |rows|
      ensures Named(Header(view), OutputValues(view, input, rows[i], cast)) == OutputRow(view, input, rows[i], cast)
    {
      NamedOutput(view, input, rows[i], cast);
    }
  }

  lemma {:induction false} NamedAll(view: LogicalView, inputs: seq<ViewInput>, db: Database, cast: Caster)
    requires AllReadable(view, inputs, db)
    ensures Rectangular(Relation(Header(view), AllValues(view, inputs, db, cast)))
    ensures NamedRows(Relation(Header(view), AllValues(view, inputs, db, cast))) == ViewRows(view, inputs, db, cast)
  {
    if inputs != [] {
      AllReadableSplits(view, inputs, db);
      NamedAll(view, inputs[1..], db, cast);
      NamedInput(view, inputs[0], db, cast);
      NamedConcat(Header(view), InputRelation(view, inputs[0], db, cast).rows, AllValues(view, inputs[1..], db, cast));
    }
  }

  lemma NamedConcat(header: seq<string>, a: seq<seq<Datum>>, b: seq<seq<Datum>>)
    requires Rectangular(Relation(header, a)) && Rectangular(Relation(header, b))
    ensures Rectangular(Relation(header, a + b))
    ensures NamedRows(Relation(header, a + b)) == NamedRows(Relation(header, a)) + NamedRows(Relation(header, b))
  {
  }

  // ----- the main results -----

  /** The data types of a view have balanced parentheses. */
  predicate BalancedTypes(view: LogicalView) {
    forall c :: c in view.columns ==> Balanced(TypeTokens(view.columns[c]), 0)
  }

  lemma ValidTypeIsPlain(dataType: string)
    requires ValidDataType(dataType)
    ensures PlainType(dataType)
  {
    forall i | 0 <= i < |dataType| ensures IsPlainChar(dataType[i]) { assert dataType[i] in dataType; }
  }

  lemma ScriptIsPrintable(view: LogicalView, inputs: seq<ViewInput>)
    requires ValidView(view) && inputs != []
    ensures CompleteScript(ScriptOf(view, inputs)) && PlainScript(ScriptOf(view, inputs))
    ensures BalancedScript(ParsedScript(ScriptOf(view, inputs))) <==> BalancedTypes(view)
  {
    forall input
      ensures CompleteSelect(SelectOf(view, input)) && PlainSelect(SelectOf(view, input))
      ensures BalancedSelect(ParsedSelect(SelectOf(view, input))) <==> BalancedTypes(view)
    {
      SelectIsPrintable(view, input);
    }
  }

  lemma SelectIsPrintable(view: LogicalView, input: ViewInput)
    requires ValidView(view)
    ensures CompleteSelect(SelectOf(view, input)) && PlainSelect(SelectOf(view, input))
    ensures BalancedSelect(ParsedSelect(SelectOf(view, input))) <==> BalancedTypes(view)
  {
    if |view.columns| == 0 {
      StarIsPrintable(view, input);
    } else {
      ItemsOfView(view, input);
      HeaderIsDistinct(view);
      BalancedByColumn(view, input, ViewItems(view, input), Header(view));
      ColumnsArePlain(view, input);
    }
  }

  lemma StarIsPrintable(view: LogicalView, input: ViewInput)
    requires |view.columns| == 0
    ensures PlainSelect(SelectOf(view, input)) && BalancedSelect(ParsedSelect(SelectOf(view, input)))
    ensures BalancedTypes(view)
  {
  }

  lemma ColumnIsPlain(view: LogicalView, input: ViewInput, i: nat)
    requires Declared(view) && i < |ColumnNames(view)|
    ensures i < |ColumnsOf(view, input)| && PlainItem(ColumnsOf(view, input)[i])
  {
    CastItems(view, input, i);
    ValidTypeIsPlain(view.columns[ColumnNames(view)[i]]);
  }

  lemma TagsArePlain(view: LogicalView, input: ViewInput)
    ensures forall i :: 0 <= i < |TagsOf(view, input)| ==> PlainItem(TagsOf(view, input)[i])
  {
  }

  lemma PlainTogether(first: seq<Item<string>>, second: seq<Item<string>>)
    requires forall i :: 0 <= i < |first| ==> PlainItem(first[i])
    requires forall i :: 0 <= i < |second| ==> PlainItem(second[i])
    ensures forall i :: 0 <= i < |first + second| ==> PlainItem((first + second)[i])
  {
  }

  lemma ColumnsArePlain(view: LogicalView, input: ViewInput)
    requires Declared(view)
    ensures PlainSelect(SelectOf(view, input))
  {
    forall i | 0 <= i < |ColumnsOf(view, input)| ensures PlainItem(ColumnsOf(view, input)[i]) {
      ColumnIsPlain(view, input, i);
    }
    TagsArePlain(view, input);
    PlainTogether(TagsOf(view, input), ColumnsOf(view, input));
  }

  lemma BalancedByColumn(view: LogicalView, input: ViewInput, items: seq<Item<seq<Token>>>, header: seq<string>)
    requires ByColumn(view, input, items, header)
    ensures (forall i :: 0 <= i < |items| ==> BalancedItem(items[i])) <==> BalancedTypes(view)
  {
  }

  /** The text of a compiled view parses back to its script exactly when the types are balanced. */
  lemma {:induction false} CompiledTextParses(config: Configuration, view: LogicalView)
    requires ValidView(view) && view.enabled && ResolvedInputs(config, view.inputs) != []
    ensures Compiled(config, view).createSql.Some?
    ensures ParseText(Compiled(config, view).createSql.value) ==
              Some(ParsedScript(ScriptOf(view, ResolvedInputs(config, view.inputs)))) <==>
            BalancedTypes(view)
  {
    var inputs := ResolvedInputs(config, view.inputs);
    ScriptIsPrintable(view, inputs);
    ScriptTextRoundTrip(ScriptOf(view, inputs));
  }

  const UNBALANCED_VIEW :=
    LogicalView("v", "unified", true, UnionAll, Skip, None, map["x" := ")"], [ViewInput("a", "t", map[])])

  const UNBALANCED :=
    Configuration(1, "127.0.0.1:8080", 1, 1, 1, 1, [Backend("a", Sqlite, "/a", None, true)], [UNBALANCED_VIEW])

  lemma UnbalancedIsValid()
    ensures ValidView(UNBALANCED_VIEW) && ValidConfig(UNBALANCED)
  {
    assert ValidName("a") && ValidName("t") && ValidName("v") && ValidName("x") && ValidName("unified");
    SplitPartsAreClean("t", '.');
    assert ValidRelation("t") && ValidDataType(")");
    assert ValidView(UNBALANCED_VIEW);
    assert AbsolutePath("/a") && ValidBackend(UNBALANCED.backends[0]);
  }

  lemma UnbalancedTypes()
    ensures !BalancedTypes(UNBALANCED_VIEW)
  {
    LexSymbolThen(')', "");
    assert [')'] + "" == ")" && Lex("") == Some([]);
    assert TypeTokens(")") == [Symbol(')')];
    assert "x" in UNBALANCED_VIEW.columns && UNBALANCED_VIEW.columns["x"] == ")";
  }

  lemma UnbalancedIsCompiled()
    ensures ResolvedInputs(UNBALANCED, UNBALANCED_VIEW.inputs) == UNBALANCED_VIEW.inputs
    ensures Compiles(UNBALANCED, UNBALANCED_VIEW)
  {
    assert IsResolved(UNBALANCED, UNBALANCED_VIEW.inputs[0]);
    assert ResolvedInputs(UNBALANCED, UNBALANCED_VIEW.inputs) == [] + [UNBALANCED_VIEW.inputs[0]];
  }

  /** A valid configuration whose view has a column of type `)`: it is compiled, and its statement does not read
      back as the view. */
  lemma {:induction false} UnbalancedTypeBreaksStatement()
    ensures ValidConfig(UNBALANCED) && UNBALANCED_VIEW in UNBALANCED.views && !BalancedTypes(UNBALANCED_VIEW)
    ensures Compiles(UNBALANCED, UNBALANCED_VIEW) && Compiled(UNBALANCED, UNBALANCED_VIEW).createSql.Some?
    ensures ParseText(Compiled(UNBALANCED, UNBALANCED_VIEW).createSql.value) !=
            Some(ParsedScript(ScriptOf(UNBALANCED_VIEW, ResolvedInputs(UNBALANCED, UNBALANCED_VIEW.inputs))))
  {
    UnbalancedIsValid();
    UnbalancedTypes();
    UnbalancedIsCompiled();
    CompiledTextParses(UNBALANCED, UNBALANCED_VIEW);
  }

  lemma UsableSnoc(config: Configuration, init: seq<ViewInput>, last: ViewInput)
    ensures UsableInputs(config, init + [last]) ==
            UsableInputs(config, init) + if Usable(config, last) then [last] else []
  {
    FilterOfConcat((input: ViewInput) => Usable(config, input), init, [last]);
    FilterOfOne((input: ViewInput) => Usable(config, input), last);
  }

  /** The compiler resolves exactly the inputs whose backends are registered and enabled. */
  lemma {:induction false} ResolvedAreUsable(config: Configuration, inputs: seq<ViewInput>)
    ensures ResolvedInputs(config, inputs) == UsableInputs(config, inputs)
  {
    if inputs != [] {
      var (init, last) := (inputs[..|inputs| - 1], inputs[|inputs| - 1]);
      ResolvedAreUsable(config, init);
      UsableSnoc(config, init, last);
      ResolvedSnoc(config, init, last);
      assert inputs == init + [last];
    }
  }

  /** End to end: the emitted text, parsed and evaluated, denotes the bag union of the resolved
      inputs' rows, renamed, cast and tagged; it fails to bind exactly if some input cannot be read. */
  lemma {:induction false} CompilationPreservesMeaning(config: Configuration, view: LogicalView, db: Database,
                                                       cast: Caster)
    requires Declared(view) && BalancedTypes(view) && view.enabled
    requires UsableInputs(config, view.inputs) != []
    ensures
      var sql := Compiled(config, view).createSql;
      var inputs := UsableInputs(config, view.inputs);
      && sql.Some? && ParseText(sql.value).Some?
      && var meaning := EvalScript(ParseText(sql.value).value, db, cast);
      && (meaning.Some? <==> AllReadable(view, inputs, db))
      && (meaning.Some? ==>
            && Rectangular(meaning.value)
            && meaning.value.header == Header(view)
            && Bag(meaning.value) == multiset(ViewRows(view, inputs, db, cast)))
  {
    var inputs := UsableInputs(config, view.inputs);
    ResolvedAreUsable(config, view.inputs);
    CompiledTextParses(config, view);
    ScriptMeaning(view, inputs, db, cast);
    if AllReadable(view, inputs, db) { NamedAll(view, inputs, db, cast); }
  }

  /** With declared columns the union mode does not matter, whatever the tables contain. */
  lemma ModesAreEquivalent(view: LogicalView, inputs: seq<ViewInput>, db: Database, cast: Caster)
    requires Declared(view) && inputs != []
    ensures EvalScript(ParsedScript(ScriptOf(view.(mode := UnionAll), inputs)), db, cast) ==
            EvalScript(ParsedScript(ScriptOf(view.(mode := UnionAllByName), inputs)), db, cast)
  {
    var (all, byName) := (view.(mode := UnionAll), view.(mode := UnionAllByName));
    ModeOnlyNamesTheUnion(view, all, inputs, db, cast);
    ModeOnlyNamesTheUnion(view, byName, inputs, db, cast);
  }

  lemma ModeOnlyNamesTheUnion(view: LogicalView, other: LogicalView, inputs: seq<ViewInput>, db: Database, cast: Caster)
    requires Declared(view) && inputs != [] && other == view.(mode := other.mode)
    ensures EvalScript(ParsedScript(ScriptOf(other, inputs)), db, cast) ==
            EvalScript(ParsedScript(ScriptOf(view, inputs)), db, cast)
  {
    ModeKeepsValidity(view, other);
    ScriptMeaning(view, inputs, db, cast);
    ScriptMeaning(other, inputs, db, cast);
    forall i | 0 <= i < |inputs| ensures Readable(view, inputs[i], db) == Readable(other, inputs[i], db) {}
    if AllReadable(view, inputs, db) { SameValues(view, other, inputs, db, cast); }
  }

  lemma ModeKeepsValidity(view: LogicalView, other: LogicalView)
    requires ValidView(view) && other == view.(mode := other.mode)
    ensures ValidView(other)
  {
  }

  lemma {:induction false} SameValues(view: LogicalView, other: LogicalView, inputs: seq<ViewInput>, db: Database,
                                      cast: Caster)
    requires other == view.(mode := other.mode)
    requires AllReadable(view, inputs, db) && AllReadable(other, inputs, db)
    ensures AllValues(view, inputs, db, cast) == AllValues(other, inputs, db, cast)
  {
    if inputs != [] {
      AllReadableSplits(view, inputs, db);
      AllReadableSplits(other, inputs, db);
      SameValues(view, other, inputs[1..], db, cast);
      forall row ensures OutputValues(view, inputs[0], row, cast) == OutputValues(other, inputs[0], row, cast) {
        assert forall c :: OutputValue(view, inputs[0], row, c, cast) == OutputValue(other, inputs[0], row, c, cast);
      }
      assert InputRelation(view, inputs[0], db, cast).rows == InputRelation(other, inputs[0], db, cast).rows;
    }
  }

  // ----- telling the sources apart -----

  predicate TaggedWith(view: LogicalView, row: Row, backend: string) {
    view.sourceColumn.Some? && Lookup(row, view.sourceColumn.value) == Datum.Text(backend)
  }

  /** The condition that the source column names this backend. */
  function FromBackend(view: LogicalView, backend: string): Row -> bool { row => TaggedWith(view, row, backend) }

  lemma InputRowsAreTagged(view: LogicalView, input: ViewInput, db: Database, cast: Caster)
    requires view.sourceColumn.Some? && TablePath(input) in db
    ensures forall row :: row in InputRows(view, input, db, cast) ==>
              forall b :: TaggedWith(view, row, b) <==> b == input.backend
  {
  }

  /** The first input keeps all its rows or none. */
  lemma {:induction false} FilterOfInput(view: LogicalView, input: ViewInput, backend: string, db: Database,
                                         cast: Caster)
    requires view.sourceColumn.Some? && TablePath(input) in db
    ensures Filter(FromBackend(view, backend), InputRows(view, input, db, cast)) ==
            if input.backend == backend then InputRows(view, input, db, cast) else []
  {
    InputRowsAreTagged(view, input, db, cast);
    if input.backend == backend {
      FilterAll(FromBackend(view, backend), InputRows(view, input, db, cast));
    } else {
      FilterNone(FromBackend(view, backend), InputRows(view, input, db, cast));
    }
  }

  lemma {:induction false} FilterOfOthers(view: LogicalView, inputs: seq<ViewInput>, backend: string, db: Database,
                                          cast: Caster)
    requires view.sourceColumn.Some? && AllReadable(view, inputs, db)
    requires forall i :: 0 <= i < |inputs| ==> inputs[i].backend != backend
    ensures Filter(FromBackend(view, backend), ViewRows(view, inputs, db, cast)) == []
  {
    NoOtherTag(view, inputs, backend, db, cast);
    FilterNone(FromBackend(view, backend), ViewRows(view, inputs, db, cast));
  }

  lemma DistinctRest(inputs: seq<ViewInput>)
    requires inputs != [] && DistinctInputs(inputs)
    ensures DistinctInputs(inputs[1..])
    ensures forall i :: 0 <= i < |inputs| - 1 ==> inputs[1..][i].backend != inputs[0].backend
  {
    assert forall i :: 0 <= i < |inputs| - 1 ==> inputs[1..][i] == inputs[i + 1];
  }

  lemma {:induction false} FilterOfFirst(view: LogicalView, inputs: seq<ViewInput>, backend: string, db: Database,
                                         cast: Caster)
    requires view.sourceColumn.Some? && inputs != [] && AllReadable(view, inputs, db)
    requires Readable(view, inputs[0], db) && AllReadable(view, inputs[1..], db)
    ensures Filter(FromBackend(view, backend), ViewRows(view, inputs, db, cast)) ==
            (if inputs[0].backend == backend then InputRows(view, inputs[0], db, cast) else [])
            + Filter(FromBackend(view, backend), ViewRows(view, inputs[1..], db, cast))
  {
    FilterOfConcat(FromBackend(view, backend), InputRows(view, inputs[0], db, cast),
                   ViewRows(view, inputs[1..], db, cast));
    FilterOfInput(view, inputs[0], backend, db, cast);
  }

  lemma Units<T>(s: seq<T>)
    ensures s + [] == s && [] + s == s
  {
  }

  /** Filtering on the source column gives back the rows of exactly one input. */
  lemma {:induction false} SourceColumnSelectsOneInput(view: LogicalView, inputs: seq<ViewInput>, k: nat, db: Database,
                                                       cast: Caster)
    requires view.sourceColumn.Some? && DistinctInputs(inputs) && AllReadable(view, inputs, db)
    requires k < |inputs|
    ensures Filter(FromBackend(view, inputs[k].backend), ViewRows(view, inputs, db, cast)) ==
            InputRows(view, inputs[k], db, cast)
  {
    var (backend, rest) := (inputs[k].backend, inputs[1..]);
    DistinctRest(inputs);
    AllReadableSplits(view, inputs, db);
    FilterOfFirst(view, inputs, backend, db, cast);
    if k == 0 {
      FilterOfOthers(view, rest, backend, db, cast);
      Units(InputRows(view, inputs[0], db, cast));
    } else {
      assert rest[k - 1] == inputs[k];
      SourceColumnSelectsOneInput(view, rest, k - 1, db, cast);
      Units(InputRows(view, inputs[k], db, cast));
    }
  }

  lemma {:induction false} NoOtherTag(view: LogicalView, inputs: seq<ViewInput>, backend: string, db: Database,
                                      cast: Caster)
    requires view.sourceColumn.Some? && AllReadable(view, inputs, db)
    requires forall i :: 0 <= i < |inputs| ==> inputs[i].backend != backend
    ensures forall row :: row in ViewRows(view, inputs, db, cast) ==> !TaggedWith(view, row, backend)
  {
    if inputs != [] {
      AllReadableSplits(view, inputs, db);
      InputRowsAreTagged(view, inputs[0], db, cast);
      NoOtherTag(view, inputs[1..], backend, db, cast);
    }
  }
}
