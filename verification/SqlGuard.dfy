/** The read-only guard (`sql.rs`) over a parsed statement, and the catalog name index it consults. */
module SqlGuard {
  import opened Wrappers
  import opened Strings

  // ----- the parts of the syntax tree the guard looks at -----

  /** An identifier with its quote character, or a name part that is computed by a function. */
  datatype Part = Ident(value: string, quote: Option<char>) | Computed

  type ObjectName = seq<Part>

  /** Tables, table functions, relations named outside a table factor, and calls in expressions;
      every other node only has children. Children are in the order the visitor reaches them. */
  datatype Node =
    | Table(name: ObjectName, withArgs: bool, children: seq<Node>)
    | TableFunction(name: ObjectName, children: seq<Node>)
    | RelationName(name: ObjectName, children: seq<Node>)
    | Call(name: ObjectName, children: seq<Node>)
    | Other(children: seq<Node>)

  datatype StatementKind = Query | Explain | ExplainTable | Write

  datatype Statement = Statement(kind: StatementKind, root: Node)

  datatype GuardError =
    | Empty
    | Unparsable
    | StatementCount(count: nat)
    | NotReadOnly
    | FunctionNotAllowed(name: ObjectName)
    | RelationNotAllowed(name: ObjectName)

  // ----- names -----

  predicate IsPathChar(c: char) { c in "/\\*?[]" }

  function Values(name: ObjectName): (values: seq<string>)
    requires forall p :: p in name ==> p.Ident?
    ensures |values| == |name|
    ensures forall i :: 0 <= i < |name| ==> values[i] == name[i].value
  {
    seq(|name|, i requires 0 <= i < |name| => name[i].value)
  }

  const COMPRESSIONS := [".gz", ".zst", ".bz2", ".xz"]

  const FILE_SUFFIXES := [
    ".parquet", ".csv", ".tsv", ".json", ".jsonl", ".ndjson", ".arrow", ".ipc", ".feather", ".avro",
    ".orc", ".xlsx", ".sqlite", ".sqlite3", ".duckdb", ".db"
  ]

  /** `find_map` of `strip_suffix`, or the string itself. */
  function WithoutCompression(s: string, suffixes: seq<string>): string {
    if suffixes == [] then s
    else if EndsWith(s, suffixes[0]) then s[..|s| - |suffixes[0]|]
    else WithoutCompression(s, suffixes[1..])
  }

  predicate LooksLikeExternalFile(relation: string) {
    var name := WithoutCompression(Lower(relation), COMPRESSIONS);
    exists suffix :: suffix in FILE_SUFFIXES && EndsWith(name, suffix)
  }

  /** The name is written like a path: single quotes, or a character no relation needs. */
  predicate WrittenAsPath(name: ObjectName)
    requires forall p :: p in name ==> p.Ident?
  {
    exists i :: 0 <= i < |name| &&
                (name[i].quote == Some('\'') || exists c :: c in name[i].value && IsPathChar(c))
  }

  predicate BlockedRelation(name: ObjectName, allowed: set<string>) {
    if exists p :: p in name && p.Computed? then true
    else if name == [] then false
    else if WrittenAsPath(name) then true
    else
      var relation := Join(Values(name), ".");
      LooksLikeExternalFile(relation) && Lower(relation) !in allowed
  }

  const BLOCKED_FUNCTIONS := ["glob", "query", "query_table", "sniff_csv", "sqlite_attach", "sqlite_query"]

  predicate BlockedFunction(name: ObjectName) {
    name != [] && name[|name| - 1].Ident? &&
    var function_ := Lower(name[|name| - 1].value);
    || StartsWith(function_, "read_")
    || EndsWith(function_, "_scan")
    || StartsWith(function_, "parquet_")
    || function_ in BLOCKED_FUNCTIONS
  }

  // ----- the visitor -----

  /** What the visitor's hooks say of one node. */
  function CheckNode(node: Node, allowed: set<string>): Option<GuardError> {
    match node
    case Table(name, withArgs, _) =>
      if withArgs && BlockedFunction(name) then Some(FunctionNotAllowed(name))
      else if BlockedRelation(name, allowed) then Some(RelationNotAllowed(name))
      else None
    case TableFunction(name, _) => if BlockedFunction(name) then Some(FunctionNotAllowed(name)) else None
    case RelationName(name, _) => if BlockedRelation(name, allowed) then Some(RelationNotAllowed(name)) else None
    case Call(name, _) => if BlockedFunction(name) then Some(FunctionNotAllowed(name)) else None
    case Other(_) => None
  }

  /** The depth-first walk; the first hook that breaks ends it. */
  function Visit(node: Node, allowed: set<string>): Option<GuardError>
    decreases node, 1
  {
    var own := CheckNode(node, allowed);
    if own.Some? then own else VisitAll(node.children, allowed)
  }

  function VisitAll(nodes: seq<Node>, allowed: set<string>): Option<GuardError>
    decreases nodes, 0
  {
    if nodes == [] then None
    else
      var first := Visit(nodes[0], allowed);
      if first.Some? then first else VisitAll(nodes[1..], allowed)
  }

  /** `inner` is `outer` or below it, at any depth. */
  ghost predicate Within(inner: Node, outer: Node)
    decreases outer
  {
    inner == outer || exists i :: 0 <= i < |outer.children| && Within(inner, outer.children[i])
  }

  ghost predicate WithinAny(inner: Node, nodes: seq<Node>) {
    exists i :: 0 <= i < |nodes| && Within(inner, nodes[i])
  }

  /** The walk accepts exactly the trees all of whose nodes pass, and what it refuses a tree for is
      the verdict on one of its nodes. */
  lemma {:induction false} VisitMeaning(node: Node, allowed: set<string>)
    ensures Visit(node, allowed).None? <==> forall n :: Within(n, node) ==> CheckNode(n, allowed).None?
    ensures Visit(node, allowed).Some? ==> exists n :: Within(n, node) && CheckNode(n, allowed) == Visit(node, allowed)
    decreases node, 1
  {
    VisitAllMeaning(node.children, allowed);
    assert Within(node, node);
    if CheckNode(node, allowed).None? {
      forall n | Within(n, node) && n != node ensures WithinAny(n, node.children) {}
      forall n | WithinAny(n, node.children) ensures Within(n, node) {}
    }
  }

  lemma {:induction false} VisitAllMeaning(nodes: seq<Node>, allowed: set<string>)
    ensures VisitAll(nodes, allowed).None? <==> forall n :: WithinAny(n, nodes) ==> CheckNode(n, allowed).None?
    ensures VisitAll(nodes, allowed).Some? ==>
              exists n :: WithinAny(n, nodes) && CheckNode(n, allowed) == VisitAll(nodes, allowed)
    decreases nodes, 0
  {
    if nodes != [] {
      VisitMeaning(nodes[0], allowed);
      VisitAllMeaning(nodes[1..], allowed);
      forall n ensures WithinAny(n, nodes) <==> Within(n, nodes[0]) || WithinAny(n, nodes[1..]) {
        if WithinAny(n, nodes) {
          var i :| 0 <= i < |nodes| && Within(n, nodes[i]);
          if i > 0 { assert Within(n, nodes[1..][i - 1]); }
        }
        if WithinAny(n, nodes[1..]) {
          var i :| 0 <= i < |nodes| - 1 && Within(n, nodes[1..][i]);
          assert Within(n, nodes[i + 1]);
        }
      }
    }
  }

  /** More registered relations never make the guard refuse more. */
  lemma {:induction false} AcceptanceIsMonotone(node: Node, allowed: set<string>, more: set<string>)
    requires allowed <= more
    requires Visit(node, allowed).None?
    ensures Visit(node, more).None?
  {
    VisitMeaning(node, allowed);
    VisitMeaning(node, more);
    forall n | Within(n, node) ensures CheckNode(n, more).None? {
      assert CheckNode(n, allowed).None?;
    }
  }

  // ----- validate_read_only_with_relations -----

  /** Unicode's White_Space property, which `str::trim` removes. */
  predicate IsWhitespace(c: char) {
    || '\U{0009}' <= c <= '\U{000D}' || c == ' ' || c == '\U{0085}' || c == '\U{00A0}' || c == '\U{1680}'
    || '\U{2000}' <= c <= '\U{200A}' || c == '\U{2028}' || c == '\U{2029}' || c == '\U{202F}'
    || c == '\U{205F}' || c == '\U{3000}'
  }

  /** The verdict on a text, given what the SQL parser makes of it. */
  function ValidateReadOnly(sql: string, parsed: Option<seq<Statement>>, allowed: set<string>): Option<GuardError> {
    if forall c :: c in sql ==> IsWhitespace(c) then Some(Empty)
    else
      match parsed
      case None => Some(Unparsable)
      case Some(statements) =>
        if |statements| != 1 then Some(StatementCount(|statements|))
        else if statements[0].kind == Write then Some(NotReadOnly)
        else Visit(statements[0].root, allowed)
  }

  lemma AcceptedTexts(sql: string, parsed: Option<seq<Statement>>, allowed: set<string>)
    ensures ValidateReadOnly(sql, parsed, allowed).None? <==>
            && (exists c :: c in sql && !IsWhitespace(c))
            && parsed.Some? && |parsed.value| == 1 && parsed.value[0].kind != Write
            && forall n :: Within(n, parsed.value[0].root) ==> CheckNode(n, allowed).None?
  {
    if parsed.Some? && |parsed.value| == 1 {
      VisitMeaning(parsed.value[0].root, allowed);
    }
  }

  // ----- what is refused, in so many words -----

  /** The function reads files or other databases, whatever its case and whatever qualifies it. */
  ghost predicate IsSourceFunction(function_: string) {
    || (exists x :: Lower(function_) == "read_" + x)
    || (exists x :: Lower(function_) == "parquet_" + x)
    || (exists x :: Lower(function_) == x + "_scan")
    || Lower(function_) in {"glob", "query", "query_table", "sniff_csv", "sqlite_attach", "sqlite_query"}
  }

  lemma BlockedFunctionMeaning(name: ObjectName)
    ensures BlockedFunction(name) <==>
            name != [] && name[|name| - 1].Ident? && IsSourceFunction(name[|name| - 1].value)
  {
    if name != [] && name[|name| - 1].Ident? {
      var f := Lower(name[|name| - 1].value);
      StartsWithMeaning(f, "read_");
      StartsWithMeaning(f, "parquet_");
      EndsWithMeaning(f, "_scan");
      assert f in BLOCKED_FUNCTIONS <==>
             f in {"glob", "query", "query_table", "sniff_csv", "sqlite_attach", "sqlite_query"};
    }
  }

  /** The names that a node calls as a function. */
  function Calls(node: Node): Option<ObjectName> {
    match node
    case Table(name, true, _) => Some(name)
    case TableFunction(name, _) => Some(name)
    case Call(name, _) => Some(name)
    case _ => None
  }

  /** The names that a node uses for a relation. */
  function Reads(node: Node): Option<ObjectName> {
    match node
    case Table(name, _, _) => Some(name)
    case RelationName(name, _) => Some(name)
    case _ => None
  }

  ghost predicate CallsSource(node: Node) {
    Calls(node).Some? &&
    var name := Calls(node).value;
    name != [] && name[|name| - 1].Ident? && IsSourceFunction(name[|name| - 1].value)
  }

  predicate SuffixListed(suffix: string) {
    suffix in {".parquet", ".csv", ".tsv", ".json", ".jsonl", ".ndjson", ".arrow", ".ipc", ".feather", ".avro",
               ".orc", ".xlsx", ".sqlite", ".sqlite3", ".duckdb", ".db"}
  }

  lemma ListedSuffixes(suffix: string)
    ensures suffix in FILE_SUFFIXES <==> SuffixListed(suffix)
  {
  }

  /** The name ends like that of a file DuckDB would open, compressed or not, ignoring case. */
  ghost predicate FileShaped(relation: string) {
    exists x, suffix, packed ::
      && SuffixListed(suffix)
      && packed in {"", ".gz", ".zst", ".bz2", ".xz"}
      && Lower(relation) == x + suffix + packed
  }

  /** A part of the name is computed, in single quotes, or has a character of a path or of a pattern. */
  ghost predicate Pathlike(name: ObjectName) {
    exists i :: 0 <= i < |name| &&
                (name[i].Computed? || name[i].quote == Some('\'') || '/' in name[i].value || '\\' in name[i].value
                 || '*' in name[i].value || '?' in name[i].value || '[' in name[i].value || ']' in name[i].value)
  }

  ghost predicate UsesSource(node: Node, allowed: set<string>) {
    Reads(node).Some? &&
    var name := Reads(node).value;
    || Pathlike(name)
    || (name != [] && FileShaped(Join(Values(name), ".")) && Lower(Join(Values(name), ".")) !in allowed)
  }

  function Ending(s: string): string
    requires |s| >= 2
  {
    s[|s| - 2..]
  }

  lemma EndingOfConcat(x: string, s: string)
    requires |s| >= 2
    ensures Ending(x + s) == Ending(s)
  {
  }

  lemma PackedEndings(packed: string)
    requires packed in {".gz", ".zst", ".bz2", ".xz"}
    ensures |packed| >= 2
    ensures Ending(packed) ==
            if packed == ".gz" then "gz" else if packed == ".zst" then "st" else if packed == ".bz2" then "z2" else "xz"
  {
  }

  lemma SuffixEndings(suffix: string)
    requires suffix in FILE_SUFFIXES
    ensures |suffix| >= 2 && Ending(suffix) !in {"gz", "st", "z2", "xz"}
  {
  }

  lemma {:induction false} StripMeaning(s: string, suffixes: seq<string>)
    ensures var r := WithoutCompression(s, suffixes);
            || (r == s && forall i :: 0 <= i < |suffixes| ==> !EndsWith(s, suffixes[i]))
            || exists i :: 0 <= i < |suffixes| && s == r + suffixes[i]
  {
    if suffixes != [] {
      if EndsWith(s, suffixes[0]) {
        assert s == s[..|s| - |suffixes[0]|] + suffixes[0];
      } else {
        StripMeaning(s, suffixes[1..]);
        var r := WithoutCompression(s, suffixes[1..]);
        if i :| 0 <= i < |suffixes[1..]| && s == r + suffixes[1..][i] {
          assert s == r + suffixes[i + 1];
        }
      }
    }
  }

  /** What is stripped is one packed ending, or nothing if there is none. */
  lemma {:induction false} StripsPacked(s: string, name: string, packed: string)
    requires s == name + packed && packed in {"", ".gz", ".zst", ".bz2", ".xz"}
    requires |name| >= 2 && Ending(name) !in {"gz", "st", "z2", "xz"}
    ensures WithoutCompression(s, COMPRESSIONS) == name
  {
    assert packed == "" ==> s == name;
    StripMeaning(s, COMPRESSIONS);
    var r := WithoutCompression(s, COMPRESSIONS);
    if i :| 0 <= i < |COMPRESSIONS| && s == r + COMPRESSIONS[i] {
      var other := COMPRESSIONS[i];
      PackedEndings(other);
      EndingOfConcat(r, other);
      if packed == "" {
        assert false;
      } else {
        PackedEndings(packed);
        EndingOfConcat(name, packed);
        assert other == packed;
        assert r == s[..|s| - |packed|] == name;
      }
    } else {
      if packed != "" {
        assert packed in COMPRESSIONS;
        EndsWithMeaning(s, packed);
      }
      assert packed == "" && s == name;
    }
  }

  lemma ShapedWith(relation: string, x: string, suffix: string, packed: string)
    requires SuffixListed(suffix) && packed in {"", ".gz", ".zst", ".bz2", ".xz"}
    requires Lower(relation) == x + suffix + packed
    ensures FileShaped(relation)
  {
  }

  lemma ShapedIfLooks(relation: string, name: string, suffix: string)
    requires name == WithoutCompression(Lower(relation), COMPRESSIONS)
    requires suffix in FILE_SUFFIXES && EndsWith(name, suffix)
    ensures FileShaped(relation)
  {
    var lower := Lower(relation);
    var x := name[..|name| - |suffix|];
    assert name == x + suffix;
    ListedSuffixes(suffix);
    StripMeaning(lower, COMPRESSIONS);
    if i :| 0 <= i < |COMPRESSIONS| && lower == name + COMPRESSIONS[i] {
      ShapedWith(relation, x, suffix, COMPRESSIONS[i]);
    } else {
      assert lower == x + suffix + "";
      ShapedWith(relation, x, suffix, "");
    }
  }

  lemma LooksIfShaped(relation: string, x: string, suffix: string, packed: string)
    requires SuffixListed(suffix) && packed in {"", ".gz", ".zst", ".bz2", ".xz"}
    requires Lower(relation) == x + suffix + packed
    ensures LooksLikeExternalFile(relation)
  {
    ListedSuffixes(suffix);
    SuffixEndings(suffix);
    EndingOfConcat(x, suffix);
    StripsPacked(Lower(relation), x + suffix, packed);
    EndsWithMeaning(x + suffix, suffix);
  }

  lemma FileShapedMeaning(relation: string)
    ensures LooksLikeExternalFile(relation) <==> FileShaped(relation)
  {
    if LooksLikeExternalFile(relation) {
      var name := WithoutCompression(Lower(relation), COMPRESSIONS);
      var suffix :| suffix in FILE_SUFFIXES && EndsWith(name, suffix);
      ShapedIfLooks(relation, name, suffix);
    }
    if FileShaped(relation) {
      var x, suffix, packed :| SuffixListed(suffix) && packed in {"", ".gz", ".zst", ".bz2", ".xz"}
                               && Lower(relation) == x + suffix + packed;
      LooksIfShaped(relation, x, suffix, packed);
    }
  }

  lemma PathCharMeaning(c: char)
    ensures IsPathChar(c) <==> c == '/' || c == '\\' || c == '*' || c == '?' || c == '[' || c == ']'
  {
  }

  lemma PathlikeMeaning(name: ObjectName)
    ensures Pathlike(name) <==> (exists p :: p in name && p.Computed?) || WrittenAsPath(name)
  {
    forall i | 0 <= i < |name| && name[i].Ident?
      ensures (exists c :: c in name[i].value && IsPathChar(c)) <==>
              || '/' in name[i].value || '\\' in name[i].value || '*' in name[i].value || '?' in name[i].value
              || '[' in name[i].value || ']' in name[i].value
    {
      PathCharsOf(name[i].value);
    }
  }

  lemma PathCharsOf(s: string)
    ensures (exists c :: c in s && IsPathChar(c)) <==>
            '/' in s || '\\' in s || '*' in s || '?' in s || '[' in s || ']' in s
  {
    forall c ensures IsPathChar(c) <==> c == '/' || c == '\\' || c == '*' || c == '?' || c == '[' || c == ']' {
      PathCharMeaning(c);
    }
  }

  lemma NodeMeaning(node: Node, allowed: set<string>)
    ensures CheckNode(node, allowed).None? <==> !CallsSource(node) && !UsesSource(node, allowed)
    ensures match CheckNode(node, allowed)
            case Some(FunctionNotAllowed(name)) => Calls(node) == Some(name) && CallsSource(node)
            case Some(RelationNotAllowed(name)) => Reads(node) == Some(name) && UsesSource(node, allowed)
            case Some(_) => false
            case None => true
  {
    match node
    case Table(name, _, _) => BlockedFunctionMeaning(name); BlockedRelationMeaning(node, name, allowed);
    case TableFunction(name, _) => BlockedFunctionMeaning(name);
    case RelationName(name, _) => BlockedRelationMeaning(node, name, allowed);
    case Call(name, _) => BlockedFunctionMeaning(name);
    case Other(_) =>
  }

  lemma BlockedRelationMeaning(node: Node, name: ObjectName, allowed: set<string>)
    requires Reads(node) == Some(name)
    ensures BlockedRelation(name, allowed) <==> UsesSource(node, allowed)
  {
    PathlikeMeaning(name);
    if !Pathlike(name) { FileShapedMeaning(Join(Values(name), ".")); }
  }

  /** Unicode's White_Space code points. */
  lemma WhitespaceMeaning(c: char)
    ensures IsWhitespace(c) <==>
            c as int in {9, 10, 11, 12, 13, 32, 133, 160, 5760, 8192, 8193, 8194, 8195, 8196, 8197, 8198, 8199, 8200,
                         8201, 8202, 8232, 8233, 8239, 8287, 12288}
  {
  }

  predicate Blank(sql: string) { forall c :: c in sql ==> IsWhitespace(c) }

  /** Every text that calls a source function, or uses a path, anywhere at any depth, is refused, whatever is
      registered. */
  lemma {:induction false} SourcesAreRefused(sql: string, statement: Statement, node: Node, allowed: set<string>)
    requires Within(node, statement.root)
    requires CallsSource(node) || (Reads(node).Some? && Pathlike(Reads(node).value))
    ensures ValidateReadOnly(sql, Some([statement]), allowed).Some?
  {
    VisitMeaning(statement.root, allowed);
    NodeMeaning(node, allowed);
  }

  /** Exactly what is accepted: one read-only statement in which no node at any depth calls a source function, uses a
      path, or names something like a file that is not registered. */
  lemma AcceptedExactly(sql: string, parsed: Option<seq<Statement>>, allowed: set<string>)
    ensures ValidateReadOnly(sql, parsed, allowed).None? <==>
            && !Blank(sql) && parsed.Some? && |parsed.value| == 1
            && parsed.value[0].kind in {Query, Explain, ExplainTable}
            && forall n :: Within(n, parsed.value[0].root) ==> !CallsSource(n) && !UsesSource(n, allowed)
  {
    AcceptedTexts(sql, parsed, allowed);
    forall n ensures CheckNode(n, allowed).None? <==> !CallsSource(n) && !UsesSource(n, allowed) {
      NodeMeaning(n, allowed);
    }
  }

  /** The reason given for a refusal is the first that applies, and true. */
  lemma RefusalsAreTrue(sql: string, parsed: Option<seq<Statement>>, allowed: set<string>)
    ensures var verdict := ValidateReadOnly(sql, parsed, allowed);
            && (verdict == Some(Empty) <==> Blank(sql))
            && (verdict == Some(Unparsable) <==> !Blank(sql) && parsed.None?)
            && (forall n :: verdict == Some(StatementCount(n)) <==>
                            !Blank(sql) && parsed.Some? && n == |parsed.value| && n != 1)
            && (verdict == Some(NotReadOnly) <==>
                  !Blank(sql) && parsed.Some? && |parsed.value| == 1 && parsed.value[0].kind == Write)
    ensures match ValidateReadOnly(sql, parsed, allowed)
            case Some(FunctionNotAllowed(name)) =>
              exists n :: Within(n, parsed.value[0].root) && Calls(n) == Some(name) && CallsSource(n)
            case Some(RelationNotAllowed(name)) =>
              exists n :: Within(n, parsed.value[0].root) && Reads(n) == Some(name) && UsesSource(n, allowed)
            case _ => true
  {
    if !Blank(sql) && parsed.Some? && |parsed.value| == 1 && parsed.value[0].kind != Write {
      var root := parsed.value[0].root;
      VisitMeaning(root, allowed);
      if Visit(root, allowed).Some? {
        var n :| Within(n, root) && CheckNode(n, allowed) == Visit(root, allowed);
        NodeMeaning(n, allowed);
      }
    }
  }

  // ----- registered_relations: the index of catalog names -----

  datatype CatalogRow = CatalogRow(catalog: string, schema: string, table: string)

  function FullName(row: CatalogRow): seq<string> { [Lower(row.catalog), Lower(row.schema), Lower(row.table)] }
  function NameWithoutMain(row: CatalogRow): seq<string> { [Lower(row.catalog), Lower(row.table)] }
  function NameWithoutMemory(row: CatalogRow): seq<string> { [Lower(row.schema), Lower(row.table)] }

  /** The parts by which a relation of the catalog may be named. */
  predicate Names(row: CatalogRow, parts: seq<string>) {
    || parts == FullName(row)
    || (Lower(row.schema) == "main" && parts == NameWithoutMain(row))
    || (Lower(row.catalog) == "memory" && parts == NameWithoutMemory(row))
  }

  /** The index holds the dotted spelling of every such name. */
  ghost predicate Indexes(relations: set<string>, rows: seq<CatalogRow>) {
    forall name :: name in relations <==>
                   exists row, parts :: row in rows && Names(row, parts) && name == Join(parts, ".")
  }

  lemma DottedPair(a: string, b: string)
    ensures Join([a, b], ".") == a + "." + b
  {
  }

  lemma DottedTriple(a: string, b: string, c: string)
    ensures Join([a, b, c], ".") == a + "." + b + "." + c
  {
    assert [a, b, c][1..] == [b, c];
    DottedPair(b, c);
  }

  /** Fills the index row by row, lower-casing every name. */
  method RegisteredRelations(rows: seq<CatalogRow>) returns (relations: set<string>)
    ensures Indexes(relations, rows)
  {
    relations := {};
    for index := 0 to |rows|
      invariant Indexes(relations, rows[..index])
    {
      var catalog := Lower(rows[index].catalog);
      var schema := Lower(rows[index].schema);
      var table := Lower(rows[index].table);
      ghost var before := relations;
      relations := relations + {catalog + "." + schema + "." + table};
      if schema == "main" {
        relations := relations + {catalog + "." + table};
      }
      if catalog == "memory" {
        relations := relations + {schema + "." + table};
      }
      assert rows[..index + 1] == rows[..index] + [rows[index]];
      OneMoreRow(before, rows[..index], rows[index], relations);
    }
    assert rows[..|rows|] == rows;
  }

  lemma OneMoreRow(before: set<string>, rows: seq<CatalogRow>, row: CatalogRow, relations: set<string>)
    requires Indexes(before, rows)
    requires relations == before + RowNames(row)
    ensures Indexes(relations, rows + [row])
  {
    RowNamesMeaning(row);
    forall name ensures name in relations <==>
        exists r, parts :: r in rows + [row] && Names(r, parts) && name == Join(parts, ".") {
      if name in before {
        var r, parts :| r in rows && Names(r, parts) && name == Join(parts, ".");
        assert r in rows + [row];
      }
      if name in RowNames(row) {
        var parts :| Names(row, parts) && name == Join(parts, ".");
        assert (rows + [row])[|rows|] == row;
      }
    }
  }

  function RowNames(row: CatalogRow): set<string> {
    var (c, s, t) := (Lower(row.catalog), Lower(row.schema), Lower(row.table));
    {c + "." + s + "." + t}
    + (if s == "main" then {c + "." + t} else {})
    + (if c == "memory" then {s + "." + t} else {})
  }

  lemma RowNamesMeaning(row: CatalogRow)
    ensures forall name :: name in RowNames(row) <==> exists parts :: Names(row, parts) && name == Join(parts, ".")
  {
    var (c, s, t) := (Lower(row.catalog), Lower(row.schema), Lower(row.table));
    DottedTriple(c, s, t);
    DottedPair(c, t);
    DottedPair(s, t);
    assert Names(row, FullName(row));
    assert s == "main" ==> Names(row, NameWithoutMain(row));
    assert c == "memory" ==> Names(row, NameWithoutMemory(row));
  }

  /** The text stands for the relation of this row: in full, without the schema `main`, or without the catalog
      `memory`, all in lower case. */
  predicate Spells(name: string, row: CatalogRow) {
    || name == Lower(row.catalog) + "." + Lower(row.schema) + "." + Lower(row.table)
    || (Lower(row.schema) == "main" && name == Lower(row.catalog) + "." + Lower(row.table))
    || (Lower(row.catalog) == "memory" && name == Lower(row.schema) + "." + Lower(row.table))
  }

  lemma SpellingsOfRow(name: string, row: CatalogRow)
    ensures Spells(name, row) <==> exists parts :: Names(row, parts) && name == Join(parts, ".")
  {
    var (c, s, t) := (Lower(row.catalog), Lower(row.schema), Lower(row.table));
    assert name in RowNames(row) <==>
           || name == c + "." + s + "." + t
           || (s == "main" && name == c + "." + t)
           || (c == "memory" && name == s + "." + t);
    RowNamesMeaning(row);
  }

  lemma IndexMeaning(relations: set<string>, rows: seq<CatalogRow>)
    requires Indexes(relations, rows)
    ensures forall name :: name in relations <==> exists row :: row in rows && Spells(name, row)
  {
    forall name ensures name in relations <==> exists row :: row in rows && Spells(name, row) {
      forall row ensures Spells(name, row) <==> exists parts :: Names(row, parts) && name == Join(parts, ".") {
        SpellingsOfRow(name, row);
      }
    }
  }

  // ----- the guard and the index -----

  function LowerAll(parts: seq<string>): (r: seq<string>)
    ensures |r| == |parts|
    ensures forall i :: 0 <= i < |parts| ==> r[i] == Lower(parts[i])
  {
    seq(|parts|, i requires 0 <= i < |parts| => Lower(parts[i]))
  }

  lemma {:induction false} LowerOfJoin(parts: seq<string>)
    ensures Lower(Join(parts, ".")) == Join(LowerAll(parts), ".")
  {
    if |parts| > 1 {
      LowerOfJoin(parts[1..]);
      assert LowerAll(parts)[1..] == LowerAll(parts[1..]);
      LowerOfConcat(parts[0] + ".", Join(parts[1..], "."));
      LowerOfConcat(parts[0], ".");
      assert Lower(".") == ".";
    }
  }

  ghost predicate DotFree(parts: seq<string>) { forall p :: p in parts ==> '.' !in p }

  lemma DotFreeLower(parts: seq<string>)
    requires DotFree(parts)
    ensures DotFree(LowerAll(parts))
  {
    forall p | p in LowerAll(parts) ensures '.' !in p {
      var i :| 0 <= i < |parts| && LowerAll(parts)[i] == p;
      assert parts[i] in parts;
      LowerKeepsDots(parts[i]);
    }
  }

  lemma DotFreeNames(row: CatalogRow, parts: seq<string>)
    requires DotFree([row.catalog, row.schema, row.table]) && Names(row, parts)
    ensures DotFree(parts) && parts != []
  {
    var all := [row.catalog, row.schema, row.table];
    assert all[0] in all && all[1] in all && all[2] in all;
    LowerKeepsDots(row.catalog);
    LowerKeepsDots(row.schema);
    LowerKeepsDots(row.table);
  }

  ghost predicate IsPlainName(name: ObjectName) {
    && name != []
    && (forall p :: p in name ==> p.Ident?)
    && !WrittenAsPath(name)
    && LooksLikeExternalFile(Join(Values(name), "."))
  }

  // ----- when the guard and its index agree -----

  /** Some relation of the catalog may be named by these parts. */
  ghost predicate IsNamed(rows: seq<CatalogRow>, parts: seq<string>) {
    exists row :: row in rows && Names(row, parts)
  }

  /** The guard lets a name through exactly if the catalog has a relation that can be named so, whatever the
      case of the letters. */
  ghost predicate Agrees(rows: seq<CatalogRow>, relations: set<string>, name: ObjectName)
    requires forall p :: p in name ==> p.Ident?
  {
    !BlockedRelation(name, relations) <==> IsNamed(rows, LowerAll(Values(name)))
  }

  /** A spelling that the guard looks up instead of blocking it outright or letting it through. */
  ghost predicate LookedUp(spelling: string) {
    LooksLikeExternalFile(spelling) && forall c :: c in spelling ==> !IsPathChar(c)
  }

  /** Split at its dots, every looked-up spelling in the index names a relation. This can be checked on the
      catalog alone. */
  ghost predicate SplitsToNames(rows: seq<CatalogRow>) {
    forall row, parts :: row in rows && Names(row, parts) && LookedUp(Join(parts, ".")) ==>
      IsNamed(rows, Split(Join(parts, "."), '.'))
  }

  lemma LookupOfParts(name: ObjectName, relations: set<string>)
    requires IsPlainName(name)
    ensures !BlockedRelation(name, relations) <==> Join(LowerAll(Values(name)), ".") in relations
  {
    LowerOfJoin(Values(name));
  }

  lemma LowerOfLower(s: string)
    ensures Lower(Lower(s)) == Lower(s)
  {
  }

  lemma {:induction false} CharOfJoin(parts: seq<string>, c: char)
    requires c in Join(parts, ".")
    ensures c == '.' || exists p :: p in parts && c in p
  {
    if |parts| == 1 {
      assert parts[0] in parts;
    } else if |parts| > 1 && c != '.' && c !in parts[0] {
      CharOfJoin(parts[1..], c);
      var p :| p in parts[1..] && c in p;
      assert p in parts;
    }
  }

  /** A plain name is spelled like something the guard looks up. */
  lemma PlainIsLookedUp(name: ObjectName)
    requires IsPlainName(name)
    ensures LookedUp(Join(LowerAll(Values(name)), "."))
  {
    var (values, lower) := (Values(name), Join(LowerAll(Values(name)), "."));
    LowerOfJoin(values);
    LowerOfLower(Join(values, "."));
    forall c | c in lower ensures !IsPathChar(c) {
      var i :| 0 <= i < |lower| && lower[i] == c;
      var d := Join(values, ".")[i];
      assert c == LowerChar(d);
      if d != '.' {
        CharOfJoin(values, d);
        var p :| p in values && d in p;
        var k :| 0 <= k < |values| && values[k] == p;
        assert d in name[k].value;
        assert !IsPathChar(d);
      }
    }
  }

  lemma AgreesIfSplits(rows: seq<CatalogRow>, relations: set<string>, name: ObjectName)
    requires Indexes(relations, rows) && SplitsToNames(rows)
    requires IsPlainName(name) && DotFree(Values(name))
    ensures Agrees(rows, relations, name)
  {
    var parts := LowerAll(Values(name));
    LookupOfParts(name, relations);
    DotFreeLower(Values(name));
    SplitOfJoin(parts, '.');
    if Join(parts, ".") in relations {
      var row, parts' :| row in rows && Names(row, parts') && Join(parts, ".") == Join(parts', ".");
      PlainIsLookedUp(name);
      assert IsNamed(rows, Split(Join(parts', "."), '.'));
    }
    if IsNamed(rows, parts) {
      var row :| row in rows && Names(row, parts);
    }
  }

  /** The name written as unquoted identifiers. */
  function Spelled(parts: seq<string>): (name: ObjectName)
    ensures |name| == |parts| && forall i :: 0 <= i < |parts| ==> name[i] == Ident(parts[i], None)
  {
    seq(|parts|, i requires 0 <= i < |parts| => Ident(parts[i], None))
  }

  lemma {:induction false} CharInJoin(parts: seq<string>, i: nat, c: char)
    requires i < |parts| && c in parts[i]
    ensures c in Join(parts, ".")
  {
    if |parts| > 1 && i > 0 { CharInJoin(parts[1..], i - 1, c); }
  }

  lemma {:induction false} SpelledIsPlain(spelling: string)
    requires LookedUp(spelling)
    ensures var (parts, name) := (Split(spelling, '.'), Spelled(Split(spelling, '.')));
            IsPlainName(name) && Values(name) == parts && DotFree(parts) && Join(parts, ".") == spelling
  {
    var (parts, name) := (Split(spelling, '.'), Spelled(Split(spelling, '.')));
    JoinOfSplit(spelling, '.');
    SplitPartsAreClean(spelling, '.');
    assert Values(name) == parts;
    forall i, c | 0 <= i < |name| && c in name[i].value ensures !IsPathChar(c) {
      CharInJoin(parts, i, c);
    }
  }

  lemma {:induction false} NamesAreLower(row: CatalogRow, parts: seq<string>)
    requires Names(row, parts)
    ensures LowerAll(parts) == parts && Lower(Join(parts, ".")) == Join(parts, ".")
  {
    LowerOfLower(row.catalog);
    LowerOfLower(row.schema);
    LowerOfLower(row.table);
    LowerOfJoin(parts);
  }

  lemma {:induction false} SplitsIfAgrees(rows: seq<CatalogRow>, relations: set<string>, row: CatalogRow,
                                          parts: seq<string>)
    requires Indexes(relations, rows) && row in rows && Names(row, parts) && LookedUp(Join(parts, "."))
    requires forall name :: IsPlainName(name) && DotFree(Values(name)) ==> Agrees(rows, relations, name)
    ensures IsNamed(rows, Split(Join(parts, "."), '.'))
  {
    var spelling := Join(parts, ".");
    var (split, name) := (Split(spelling, '.'), Spelled(Split(spelling, '.')));
    SpelledIsPlain(spelling);
    NamesAreLower(row, parts);
    LookupOfParts(name, relations);
    LowerOfJoin(split);
    assert spelling in relations;
    assert Agrees(rows, relations, name);
    DotFreeLower(split);
    SplitOfJoin(LowerAll(split), '.');
  }

  /** The exact condition. The guard and the catalog agree on all dot-free plain names if and only if every
      spelling in the index that the guard looks up, split at its dots, is a name of a relation. */
  lemma GuardAgreesExactly(rows: seq<CatalogRow>, relations: set<string>)
    requires Indexes(relations, rows)
    ensures (forall name :: IsPlainName(name) && DotFree(Values(name)) ==> Agrees(rows, relations, name)) <==>
            SplitsToNames(rows)
  {
    if SplitsToNames(rows) {
      forall name | IsPlainName(name) && DotFree(Values(name)) ensures Agrees(rows, relations, name) {
        AgreesIfSplits(rows, relations, name);
      }
    }
    if forall name :: IsPlainName(name) && DotFree(Values(name)) ==> Agrees(rows, relations, name) {
      forall row, parts | row in rows && Names(row, parts) && LookedUp(Join(parts, "."))
        ensures IsNamed(rows, Split(Join(parts, "."), '.'))
      {
        SplitsIfAgrees(rows, relations, row, parts);
      }
    }
  }

  /** In particular they agree on a catalog whose looked-up spellings come from names without dots. */
  lemma GuardAgreesWithIndex(name: ObjectName, rows: seq<CatalogRow>, relations: set<string>)
    requires IsPlainName(name) && Indexes(relations, rows)
    requires DotFree(Values(name))
    requires forall row :: row in rows ==> DotFree([row.catalog, row.schema, row.table])
    ensures Agrees(rows, relations, name)
  {
    forall row, parts | row in rows && Names(row, parts) && LookedUp(Join(parts, "."))
      ensures IsNamed(rows, Split(Join(parts, "."), '.'))
    {
      DotFreeNames(row, parts);
      SplitOfJoin(parts, '.');
    }
    GuardAgreesExactly(rows, relations);
  }

  const DOTTED_ROW := CatalogRow("memory", "main", "a.parquet")
  const UNKNOWN_NAME := [Ident("main", None), Ident("a", None), Ident("parquet", None)]

  predicate IsLetters(s: string) { forall i :: 0 <= i < |s| ==> 'a' <= s[i] <= 'z' }

  lemma LettersArePlain(s: string)
    requires IsLetters(s)
    ensures Lower(s) == s && '.' !in s && forall c :: c in s ==> !IsPathChar(c)
  {
  }

  lemma UnknownNameParts()
    ensures Values(UNKNOWN_NAME) == ["main", "a", "parquet"]
    ensures DotFree(Values(UNKNOWN_NAME)) && !WrittenAsPath(UNKNOWN_NAME)
    ensures LowerAll(Values(UNKNOWN_NAME)) == ["main", "a", "parquet"]
  {
    assert Values(UNKNOWN_NAME) == ["main", "a", "parquet"];
    LettersArePlain("main");
    LettersArePlain("a");
    LettersArePlain("parquet");
  }

  lemma DottedRowNames()
    ensures Names(DOTTED_ROW, ["main", "a.parquet"])
    ensures !Names(DOTTED_ROW, ["main", "a", "parquet"])
    ensures Join(["main", "a", "parquet"], ".") == Join(["main", "a.parquet"], ".")
  {
    LettersArePlain("memory");
    LettersArePlain("main");
    assert Lower("a.parquet") == "a.parquet";
    assert FullName(DOTTED_ROW)[0] != ["main", "a", "parquet"][0];
    DottedTriple("main", "a", "parquet");
    DottedPair("main", "a.parquet");
    assert "main" + "." + "a" + "." + "parquet" == "main" + "." + "a.parquet";
  }

  const UNKNOWN_SPELLING := "main.a.parquet"

  lemma {:induction false} NoneStripped(s: string, suffixes: seq<string>)
    requires forall suffix :: suffix in suffixes ==> !EndsWith(s, suffix)
    ensures WithoutCompression(s, suffixes) == s
  {
    if suffixes != [] { NoneStripped(s, suffixes[1..]); }
  }

  lemma {:induction false} NotCompressed(s: string)
    requires |s| > 4 && s[|s| - 2] == 'e'
    ensures WithoutCompression(s, COMPRESSIONS) == s
  {
    forall suffix | suffix in COMPRESSIONS ensures !EndsWith(s, suffix) {
      assert 2 < |suffix| <= 4 && suffix[|suffix| - 2] != 'e';
      assert s[|s| - |suffix|..][|suffix| - 2] == s[|s| - 2];
    }
    NoneStripped(s, COMPRESSIONS);
  }

  lemma NoCapitals(s: string)
    requires forall i :: 0 <= i < |s| ==> !('A' <= s[i] <= 'Z')
    ensures Lower(s) == s
  {
  }

  lemma UnknownIsFileShaped()
    ensures LooksLikeExternalFile(UNKNOWN_SPELLING)
  {
    NoCapitals(UNKNOWN_SPELLING);
    NotCompressed(UNKNOWN_SPELLING);
    assert FILE_SUFFIXES[0] == ".parquet" && EndsWith(UNKNOWN_SPELLING, ".parquet");
  }

  lemma UnknownNameIsPlain()
    ensures IsPlainName(UNKNOWN_NAME)
  {
    UnknownNameParts();
    DottedTriple("main", "a", "parquet");
    assert "main" + "." + "a" + "." + "parquet" == UNKNOWN_SPELLING;
    UnknownIsFileShaped();
  }

  /** With a dot inside a catalog name the two can disagree: the table `a.parquet` of `memory.main` lets the
      file-shaped name `main.a.parquet` through, which is blocked without it and names nothing. */
  lemma DottedNamesDisagree(relations: set<string>)
    requires Indexes(relations, [DOTTED_ROW])
    ensures IsPlainName(UNKNOWN_NAME) && DotFree(Values(UNKNOWN_NAME))
    ensures BlockedRelation(UNKNOWN_NAME, {}) && !BlockedRelation(UNKNOWN_NAME, relations)
    ensures !IsNamed([DOTTED_ROW], LowerAll(Values(UNKNOWN_NAME)))
    ensures !Agrees([DOTTED_ROW], relations, UNKNOWN_NAME) && !SplitsToNames([DOTTED_ROW])
  {
    UnknownNameParts();
    UnknownNameIsPlain();
    DottedRowNames();
    LowerOfJoin(Values(UNKNOWN_NAME));
    assert DOTTED_ROW in [DOTTED_ROW] && Names(DOTTED_ROW, ["main", "a.parquet"]);
    GuardAgreesExactly([DOTTED_ROW], relations);
  }
}
