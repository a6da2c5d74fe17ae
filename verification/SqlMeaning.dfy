/** What a parsed view script means: a bag of rows, for any contents of the tables it names. */
module SqlMeaning {
  import opened Wrappers
  import opened Lists
  import opened SqlText
  import opened SqlGrammar

  /** A value is text or something the model does not look into. */
  datatype Datum = Null | Text(s: string) | Other(n: int)

  type Row = map<string, Datum>

  datatype Table = Table(header: seq<string>, rows: seq<Row>)

  /** Tables by their path: backend, then the parts of the relation name. */
  type Database = map<seq<string>, Table>

  /** Casting is the engine's; the meaning is given for every cast function. */
  type Caster = (seq<Token>, Datum) -> Datum

  /** Columns by position; the order of the rows has no meaning. */
  datatype Relation = Relation(header: seq<string>, rows: seq<seq<Datum>>)

  function Lookup(row: Row, column: string): Datum { if column in row then row[column] else Null }

  predicate Distinct(names: seq<string>) { forall i, j :: 0 <= i < j < |names| ==> names[i] != names[j] }

  /** The first position of a name. */
  function IndexOf(names: seq<string>, name: string): (i: nat)
    requires name in names
    ensures i < |names| && names[i] == name
    ensures forall j :: 0 <= j < i ==> names[j] != name
  {
    if names[0] == name then 0 else 1 + IndexOf(names[1..], name)
  }

  // ----- one select -----

  function ItemHeader(item: Item<seq<Token>>, table: Table): seq<string> {
    match item
    case Tag(_, column) => [column]
    case Cast(_, _, logical) => [logical]
    case Star => table.header
  }

  function ItemValues(item: Item<seq<Token>>, table: Table, row: Row, cast: Caster): seq<Datum> {
    match item
    case Tag(value, _) => [Text(value)]
    case Cast(physical, dataType, _) => [cast(dataType, Lookup(row, physical))]
    case Star => Map(c => Lookup(row, c), table.header)
  }

  /** The source exists and has every column the projection reads. */
  predicate Binds(s: Select<seq<Token>>, db: Database) {
    && s.source in db
    && forall i :: 0 <= i < |s.items| ==> s.items[i].Cast? ==> s.items[i].physical in db[s.source].header
  }

  function RowValues(s: Select<seq<Token>>, table: Table, row: Row, cast: Caster): seq<Datum> {
    Flat(Map(item => ItemValues(item, table, row, cast), s.items))
  }

  function EvalSelect(s: Select<seq<Token>>, db: Database, cast: Caster): Option<Relation> {
    if !Binds(s, db) then None
    else
      var table := db[s.source];
      Some(Relation(Flat(Map(item => ItemHeader(item, table), s.items)),
                    Map(row => RowValues(s, table, row, cast), table.rows)))
  }

  // ----- unions -----

  function UnionAll(a: Relation, b: Relation): Option<Relation> {
    if |a.header| != |b.header| then None else Some(Relation(a.header, a.rows + b.rows))
  }

  /** A row of a relation with columns `from`, arranged under the columns `to`; what is missing is null. */
  function Rearranged(from: seq<string>, to: seq<string>, row: seq<Datum>): seq<Datum> {
    Map(c => if c in from && IndexOf(from, c) < |row| then row[IndexOf(from, c)] else Null, to)
  }

  function UnionAllByName(a: Relation, b: Relation): Option<Relation> {
    if !Distinct(a.header) || !Distinct(b.header) then None
    else
      var header := a.header + Filter(c => c !in a.header, b.header);
      Some(Relation(header, Map(row => Rearranged(a.header, header, row), a.rows)
                            + Map(row => Rearranged(b.header, header, row), b.rows)))
  }

  function EvalBranches(acc: Relation, branches: seq<Branch<seq<Token>>>, db: Database, cast: Caster): Option<Relation>
    decreases |branches|
  {
    if branches == [] then Some(acc)
    else
      var right :- EvalSelect(branches[0].select, db, cast);
      var both :- if branches[0].byName then UnionAllByName(acc, right) else UnionAll(acc, right);
      EvalBranches(both, branches[1..], db, cast)
  }

  function EvalScript(v: ViewScript<seq<Token>>, db: Database, cast: Caster): Option<Relation> {
    var first :- EvalSelect(v.first, db, cast);
    EvalBranches(first, v.rest, db, cast)
  }

  // ----- both unions agree on equal columns -----

  /** Every row has a value for every column. */
  predicate Rectangular(r: Relation) { forall i :: 0 <= i < |r.rows| ==> |r.rows[i]| == |r.header| }

  lemma RearrangedInPlace(header: seq<string>, row: seq<Datum>)
    requires Distinct(header) && |row| == |header|
    ensures Rearranged(header, header, row) == row
  {
  }

  lemma RowsInPlace(header: seq<string>, rows: seq<seq<Datum>>)
    requires Distinct(header) && forall i :: 0 <= i < |rows| ==> |rows[i]| == |header|
    ensures Map(row => Rearranged(header, header, row), rows) == rows
  {
    forall i | 0 <= i < |rows| ensures Rearranged(header, header, rows[i]) == rows[i] {
      RearrangedInPlace(header, rows[i]);
    }
  }

  /** With the same columns in the same order the two unions are one. */
  lemma UnionsAgree(a: Relation, b: Relation)
    requires a.header == b.header && Distinct(a.header) && Rectangular(a) && Rectangular(b)
    ensures UnionAllByName(a, b) == UnionAll(a, b) == Some(Relation(a.header, a.rows + b.rows))
  {
    FilterNone(c => c !in a.header, b.header);
    assert a.header + [] == a.header;
    RowsInPlace(a.header, a.rows);
    RowsInPlace(a.header, b.rows);
  }

  // ----- rows by name -----

  /** A row as the mapping from column names to values. */
  function Named(header: seq<string>, row: seq<Datum>): Row
    requires |row| == |header|
  {
    map c | c in header :: row[IndexOf(header, c)]
  }

  /** A relation as a bag of named rows. */
  ghost function Bag(r: Relation): multiset<Row>
    requires Rectangular(r)
  {
    multiset(NamedRows(r))
  }

  ghost function NamedRows(r: Relation): seq<Row>
    requires Rectangular(r)
  {
    seq(|r.rows|, i requires 0 <= i < |r.rows| => Named(r.header, r.rows[i]))
  }
}
