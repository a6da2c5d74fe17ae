/** What a logical view describes, in terms of its own fields and the contents of tables: no SQL and nothing of the
    compiler. */
module ViewDescription {
  import opened Wrappers
  import opened Lists
  import opened Strings
  import opened Sorting
  import opened Commands
  import opened Config
  import opened SqlGrammar
  import opened SqlMeaning

  // ----- columns and tables -----

  /** The columns of the view: the source column, if any, then the declared ones in key order. */
  function Header(view: LogicalView): seq<string> {
    (match view.sourceColumn case Some(column) => [column] case None => []) + SortedKeys(view.columns.Keys)
  }

  /** The column of the source that gives `column`: the one it is mapped to, or the one of the same name. */
  function ReadColumn(input: ViewInput, column: string): string {
    if column in input.columns then input.columns[column] else column
  }

  /** The path names the input's table: its backend, and parts without dots that spell its relation. */
  ghost predicate IsTable(path: seq<string>, input: ViewInput) {
    && |path| > 1 && path[0] == input.backend
    && (forall p :: p in path[1..] ==> '.' !in p)
    && Join(path[1..], ".") == input.relation
  }

  function TablePath(input: ViewInput): (path: seq<string>) { [input.backend] + Split(input.relation, '.') }

  lemma TablePathMeaning(path: seq<string>, input: ViewInput)
    ensures IsTable(path, input) <==> path == TablePath(input)
  {
    var parts := Split(input.relation, '.');
    assert TablePath(input)[1..] == parts;
    JoinOfSplit(input.relation, '.');
    SplitPartsAreClean(input.relation, '.');
    if IsTable(path, input) {
      SplitOfJoin(path[1..], '.');
      assert path == [path[0]] + path[1..];
    }
  }

  // ----- rows -----

  /** The value of one column: the backend's name in the source column, and otherwise the cast of what is read to
      the type the column is declared with. */
  function OutputValue(view: LogicalView, input: ViewInput, row: Row, column: string, cast: Caster): Datum {
    if view.sourceColumn == Some(column) then Datum.Text(input.backend)
    else if column in view.columns then cast(TypeTokens(view.columns[column]), Lookup(row, ReadColumn(input, column)))
    else Null
  }

  /** A source row under the view's names: renamed by the input's mapping, cast, and tagged. */
  function OutputRow(view: LogicalView, input: ViewInput, row: Row, cast: Caster): Row {
    map c | c in Header(view) :: OutputValue(view, input, row, c, cast)
  }

  /** The input's table exists and has the columns the view reads. */
  predicate Readable(view: LogicalView, input: ViewInput, db: Database) {
    && TablePath(input) in db
    && forall c :: c in view.columns ==> ReadColumn(input, c) in db[TablePath(input)].header
  }

  function InputRows(view: LogicalView, input: ViewInput, db: Database, cast: Caster): (r: seq<Row>)
    requires TablePath(input) in db
    ensures |r| == |db[TablePath(input)].rows|
    ensures forall i :: 0 <= i < |r| ==> r[i] == OutputRow(view, input, db[TablePath(input)].rows[i], cast)
  {
    var rows := db[TablePath(input)].rows;
    seq(|rows|, i requires 0 <= i < |rows| => OutputRow(view, input, rows[i], cast))
  }

  predicate AllReadable(view: LogicalView, inputs: seq<ViewInput>, db: Database) {
    forall i :: 0 <= i < |inputs| ==> Readable(view, inputs[i], db)
  }

  /** The rows of all inputs, one after another. */
  function ViewRows(view: LogicalView, inputs: seq<ViewInput>, db: Database, cast: Caster): seq<Row>
    requires AllReadable(view, inputs, db)
  {
    if inputs == [] then [] else InputRows(view, inputs[0], db, cast) + ViewRows(view, inputs[1..], db, cast)
  }

  // ----- inputs -----

  /** The input's backend is registered and enabled. */
  predicate Usable(config: Configuration, input: ViewInput) {
    var backend := FindBackend(config.backends, input.backend); backend.Some? && backend.value.enabled
  }

  function UsableInputs(config: Configuration, inputs: seq<ViewInput>): seq<ViewInput> {
    Filter(input => Usable(config, input), inputs)
  }
}
