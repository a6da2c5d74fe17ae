/** What the compiler says of a view, spelled out: whether it compiles, the text of its statement, and its status. */
module ViewText {
  import opened Wrappers
  import opened Lists
  import opened Strings
  import opened Sorting
  import opened Commands
  import opened Config
  import opened SqlText
  import opened ViewDescription
  import opened ViewMeaning
  import opened ViewCompiler

  // ----- when a view compiles -----

  /** A view that is enabled compiles unless its schema is taken by an enabled backend, it demands an input that cannot
      be used, or it names a relation that a Parquet backend does not have. */
  lemma CompilesMeaning(config: Configuration, view: LogicalView)
    ensures Compiles(config, view) <==>
            view.enabled ==>
              && (forall b :: b in config.backends && b.enabled ==> b.name != view.schema)
              && (view.missingSourcePolicy == Error ==> forall i :: i in view.inputs ==> Usable(config, i))
              && (forall i :: i in view.inputs && Usable(config, i) ==>
                    var b := FindBackend(config.backends, i.backend).value;
                    b.kind == Parquet ==> i.relation == b.Relation())
  {
    forall i | i in view.inputs
      ensures InputOk(config, view, i) <==>
              && (view.missingSourcePolicy == Error ==> Usable(config, i))
              && (Usable(config, i) ==>
                    var b := FindBackend(config.backends, i.backend).value;
                    b.kind == Parquet ==> i.relation == b.Relation())
    {
    }
  }

  // ----- the statement -----

  /** What one column of a select is written as. */
  function CastSpelled(view: LogicalView, input: ViewInput, column: string): string {
    "CAST(" + QuoteIdent(ReadColumn(input, column)) + " AS "
    + (if column in view.columns then view.columns[column] else "") + ") AS " + QuoteIdent(column)
  }

  function ItemsSpelled(view: LogicalView, input: ViewInput): seq<string> {
    (match view.sourceColumn
     case Some(column) => ["'" + EscapeLiteral(input.backend) + "' AS " + QuoteIdent(column)]
     case None => [])
    + if |view.columns| == 0 then ["*"]
      else Map(c => CastSpelled(view, input, c), SortedKeys(view.columns.Keys))
  }

  function SelectSpelled(view: LogicalView, input: ViewInput): string {
    "SELECT " + Join(ItemsSpelled(view, input), ", ") + " FROM " + Join(Map(QuoteIdent, TablePath(input)), ".")
  }

  lemma ColumnsSpelled(view: LogicalView, input: ViewInput)
    ensures Map(ItemText, ColumnsOf(view, input)) ==
            if |view.columns| == 0 then ["*"]
            else Map(c => CastSpelled(view, input, c), SortedKeys(view.columns.Keys))
  {
  }

  lemma SelectIsSpelled(view: LogicalView, input: ViewInput)
    ensures SelectText(SelectOf(view, input)) == SelectSpelled(view, input)
  {
    MapOfConcat(ItemText, TagsOf(view, input), ColumnsOf(view, input));
    ColumnsSpelled(view, input);
    assert Map(ItemText, TagsOf(view, input)) ==
           match view.sourceColumn
           case Some(column) => ["'" + EscapeLiteral(input.backend) + "' AS " + QuoteIdent(column)]
           case None => [];
  }

  function SelectsSpelled(view: LogicalView, inputs: seq<ViewInput>): seq<string> {
    Map(input => SelectSpelled(view, input), inputs)
  }

  lemma SelectsAreSpelled(view: LogicalView, inputs: seq<ViewInput>)
    ensures SelectTexts(view, inputs) == SelectsSpelled(view, inputs)
  {
    forall i | 0 <= i < |inputs| ensures SelectTexts(view, inputs)[i] == SelectsSpelled(view, inputs)[i] {
      SelectIsSpelled(view, inputs[i]);
    }
  }

  /** The whole text, for any view, with or without declared columns. There is one exactly if the view is enabled and
      some input can be used. */
  lemma StatementIsSpelled(config: Configuration, view: LogicalView)
    ensures Compiled(config, view).createSql ==
            var inputs := UsableInputs(config, view.inputs);
            if !view.enabled || inputs == [] then None
            else
              Some("CREATE SCHEMA IF NOT EXISTS " + QuoteIdent(view.schema) + ";\nCREATE VIEW "
                   + QuoteIdent(view.schema) + "." + QuoteIdent(view.name) + " AS "
                   + Join(SelectsSpelled(view, inputs),
                          match view.mode case UnionAll => " UNION ALL " case UnionAllByName => " UNION ALL BY NAME ")
                   + ";")
  {
    ResolvedAreUsable(config, view.inputs);
    var inputs := UsableInputs(config, view.inputs);
    if view.enabled && inputs != [] {
      ScriptTextIsRight(view, inputs);
      SelectsAreSpelled(view, inputs);
    }
  }

  // ----- the status -----

  function Unusable(config: Configuration, inputs: seq<ViewInput>): seq<ViewInput> {
    Filter(input => !Usable(config, input), inputs)
  }

  /** Why an input is skipped: its backend is there but disabled, or is not there. */
  function SkippedFor(config: Configuration, input: ViewInput): SkippedSource {
    if exists b :: b in config.backends && b.name == input.backend
    then SkippedSource(input.backend, SkipReason.Disabled)
    else SkippedSource(input.backend, NotRegistered)
  }

  lemma UnusableSnoc(config: Configuration, init: seq<ViewInput>, last: ViewInput)
    ensures Unusable(config, init + [last]) == Unusable(config, init) + if Usable(config, last) then [] else [last]
  {
    FilterOfConcat((input: ViewInput) => !Usable(config, input), init, [last]);
    FilterOfOne((input: ViewInput) => !Usable(config, input), last);
  }

  lemma SkipIsFor(config: Configuration, input: ViewInput)
    requires !Usable(config, input)
    ensures SkipOf(config, input) == SkippedFor(config, input)
  {
  }

  function SkippedForAll(config: Configuration, inputs: seq<ViewInput>): seq<SkippedSource> {
    Map(i => SkippedFor(config, i), inputs)
  }

  lemma SkippedForSnoc(config: Configuration, init: seq<ViewInput>, last: ViewInput)
    ensures SkippedForAll(config, init + [last]) == SkippedForAll(config, init) + [SkippedFor(config, last)]
  {
  }

  lemma {:induction false} SkippedAreUnusable(config: Configuration, inputs: seq<ViewInput>)
    ensures SkippedInputs(config, inputs) == SkippedForAll(config, Unusable(config, inputs))
  {
    if inputs != [] {
      var (init, last) := (inputs[..|inputs| - 1], inputs[|inputs| - 1]);
      SkippedAreUnusable(config, init);
      UnusableSnoc(config, init, last);
      ResolvedSnoc(config, init, last);
      assert inputs == init + [last];
      if !Usable(config, last) {
        SkipIsFor(config, last);
        SkippedForSnoc(config, Unusable(config, init), last);
      }
    }
  }

  /** The status says what the statement is: `Ready` if there is one, `Unavailable` if no input can be used,
      `IsDisabled` with nothing looked at if the view is off. */
  lemma StatusMeaning(config: Configuration, view: LogicalView)
    ensures var (status, sql) := (Compiled(config, view).status, Compiled(config, view).createSql);
            && status.name == view.schema + "." + view.name && status.enabled == view.enabled
            && (status.status == IsDisabled <==> !view.enabled)
            && (status.status == Ready <==> sql.Some?)
            && (status.status == Unavailable <==> view.enabled && UsableInputs(config, view.inputs) == [])
            && status.resolvedSources ==
               (if view.enabled then Map((i: ViewInput) => i.backend, UsableInputs(config, view.inputs)) else [])
            && status.skippedSources ==
               if view.enabled then SkippedForAll(config, Unusable(config, view.inputs)) else []
  {
    ResolvedAreUsable(config, view.inputs);
    SkippedAreUnusable(config, view.inputs);
    var inputs := UsableInputs(config, view.inputs);
    assert BackendsOf(inputs) == Map((i: ViewInput) => i.backend, inputs);
  }
}
