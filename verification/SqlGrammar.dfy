/** The statements the gateway generates: their syntax trees, their text, and a parser for the
    tokens of that text. `D` is how a data type is represented: as text when printed, as tokens
    when parsed. */
module SqlGrammar {
  import opened Wrappers
  import opened Lists
  import opened SqlText

  datatype Item<D> =
    | Tag(value: string, column: string)               // 'value' AS "column"
    | Cast(physical: string, dataType: D, logical: string) // CAST("physical" AS type) AS "logical"
    | Star

  datatype Select<D> = Select(items: seq<Item<D>>, source: seq<string>)

  datatype Branch<D> = Branch(byName: bool, select: Select<D>)

  /** CREATE SCHEMA IF NOT EXISTS; CREATE VIEW schema.name AS first UNION ALL [BY NAME] ... */
  datatype ViewScript<D> =
    ViewScript(created: string, schema: string, name: string, first: Select<D>, rest: seq<Branch<D>>)

  // ----- keywords -----

  const AS := Words(["AS"])
  const SELECT := Words(["SELECT"])
  const FROM := Words(["FROM"])
  const UNION_ALL := Words(["UNION", "ALL"])
  const BY_NAME := Words(["BY", "NAME"])
  const CREATE_SCHEMA := Words(["CREATE", "SCHEMA", "IF", "NOT", "EXISTS"])
  const CREATE_VIEW := [Symbol(';')] + Words(["CREATE", "VIEW"])
  const CAST_OPEN := [Word("CAST"), Symbol('(')]
  const CLOSE_AS := [Symbol(')')] + AS
  const COMMA := [Symbol(',')]
  const DOT := [Symbol('.')]

  // ----- printing, as pieces -----

  const AS_TEXT := Plain(" AS ")
  const SELECT_TEXT := Plain("SELECT ")
  const FROM_TEXT := Plain(" FROM ")
  const UNION_ALL_TEXT := Plain(" UNION ALL ")
  const UNION_ALL_BY_NAME_TEXT := Plain(" UNION ALL BY NAME ")
  const CREATE_SCHEMA_TEXT := Plain("CREATE SCHEMA IF NOT EXISTS ")
  const CREATE_VIEW_TEXT := Plain(";\nCREATE VIEW ")
  const CAST_TEXT := Plain("CAST(")
  const COMMA_TEXT := Plain(", ")
  const DOT_TEXT := Plain(".")
  const STAR_TEXT := Plain("*")
  const END_TEXT := Plain(";")

  function TypeText(dataType: string): Piece { Plain(" AS " + dataType + ") AS ") }

  function UnionText(byName: bool): Piece { if byName then UNION_ALL_BY_NAME_TEXT else UNION_ALL_TEXT }

  function ItemPieces(item: Item<string>): seq<Piece> {
    match item
    case Tag(value, column) => [Value(value), AS_TEXT, Name(column)]
    case Cast(physical, dataType, logical) => [CAST_TEXT, Name(physical), TypeText(dataType), Name(logical)]
    case Star => [STAR_TEXT]
  }

  function ItemsPieces(items: seq<Item<string>>): seq<Piece> {
    if items == [] then []
    else if |items| == 1 then ItemPieces(items[0])
    else ItemPieces(items[0]) + ([COMMA_TEXT] + ItemsPieces(items[1..]))
  }

  function PathPieces(path: seq<string>): seq<Piece> {
    if path == [] then []
    else if |path| == 1 then [Name(path[0])]
    else [Name(path[0])] + ([DOT_TEXT] + PathPieces(path[1..]))
  }

  function SelectPieces(s: Select<string>): seq<Piece> {
    [SELECT_TEXT] + (ItemsPieces(s.items) + ([FROM_TEXT] + PathPieces(s.source)))
  }

  function BranchesPieces(branches: seq<Branch<string>>): seq<Piece> {
    if branches == [] then []
    else [UnionText(branches[0].byName)] + (SelectPieces(branches[0].select) + BranchesPieces(branches[1..]))
  }

  function HeaderPieces(created: string, schema: string, name: string, rest: seq<Piece>): seq<Piece> {
    [CREATE_SCHEMA_TEXT] + ([Name(created)] + ([CREATE_VIEW_TEXT] + ([Name(schema)] + ([DOT_TEXT] + ([Name(name)]
    + ([AS_TEXT] + rest))))))
  }

  function ScriptPieces(v: ViewScript<string>): seq<Piece> {
    HeaderPieces(v.created, v.schema, v.name, SelectPieces(v.first) + (BranchesPieces(v.rest) + [END_TEXT]))
  }

  // ----- parsing -----

  /** The tokens after `prefix`, if they start with it. */
  function Expect(ts: seq<Token>, prefix: seq<Token>): (r: Option<seq<Token>>)
    ensures r.Some? ==> |r.value| + |prefix| == |ts|
  {
    if prefix <= ts then Some(ts[|prefix|..]) else None
  }

  function ExpectName(ts: seq<Token>): (r: Option<(string, seq<Token>)>)
    ensures r.Some? ==> |r.value.1| < |ts|
  {
    if ts != [] && ts[0].Quoted? then Some((ts[0].text, ts[1..])) else None
  }

  /** How many tokens a data type takes: up to the parenthesis that closes the cast. */
  function TypeEnd(ts: seq<Token>, depth: nat): (r: Option<nat>)
    ensures r.Some? ==> r.value < |ts|
  {
    if ts == [] || ts[0].Quoted? || ts[0].Literal? then None
    else if ts[0] == Symbol(')') && depth == 0 then Some(0)
    else
      var n :- TypeEnd(ts[1..], if ts[0] == Symbol('(') then depth + 1
                                else if ts[0] == Symbol(')') then depth - 1
                                else depth);
      Some(n + 1)
  }

  function ParseItem(ts: seq<Token>): (r: Option<(Item<seq<Token>>, seq<Token>)>)
    ensures r.Some? ==> |r.value.1| < |ts|
  {
    if ts == [] then None
    else if ts[0].Literal? then
      var afterAs :- Expect(ts[1..], AS);
      var (column, rest) :- ExpectName(afterAs);
      Some((Tag(ts[0].text, column), rest))
    else if ts[0] == Symbol('*') then Some((Star, ts[1..]))
    else
      var afterCast :- Expect(ts, CAST_OPEN);
      var (physical, afterName) :- ExpectName(afterCast);
      var afterAs :- Expect(afterName, AS);
      var n :- TypeEnd(afterAs, 0);
      var afterType :- Expect(afterAs[n..], CLOSE_AS);
      var (logical, rest) :- ExpectName(afterType);
      Some((Cast(physical, afterAs[..n], logical), rest))
  }

  function ParseItems(ts: seq<Token>): (r: Option<(seq<Item<seq<Token>>>, seq<Token>)>)
    ensures r.Some? ==> |r.value.1| < |ts|
    decreases |ts|
  {
    var (item, rest) :- ParseItem(ts);
    if COMMA <= rest then
      var (items, end) :- ParseItems(rest[1..]);
      Some(([item] + items, end))
    else Some(([item], rest))
  }

  function ParsePath(ts: seq<Token>): (r: Option<(seq<string>, seq<Token>)>)
    ensures r.Some? ==> |r.value.1| < |ts|
    decreases |ts|
  {
    var (name, rest) :- ExpectName(ts);
    if DOT <= rest then
      var (names, end) :- ParsePath(rest[1..]);
      Some(([name] + names, end))
    else Some(([name], rest))
  }

  function ParseSelect(ts: seq<Token>): (r: Option<(Select<seq<Token>>, seq<Token>)>)
    ensures r.Some? ==> |r.value.1| < |ts|
  {
    var afterSelect :- Expect(ts, SELECT);
    var (items, afterItems) :- ParseItems(afterSelect);
    var afterFrom :- Expect(afterItems, FROM);
    var (source, rest) :- ParsePath(afterFrom);
    Some((Select(items, source), rest))
  }

  function ParseBranches(ts: seq<Token>): (r: Option<(seq<Branch<seq<Token>>>, seq<Token>)>)
    decreases |ts|
  {
    if UNION_ALL <= ts then
      var afterUnion := ts[|UNION_ALL|..];
      var byName := BY_NAME <= afterUnion;
      var (select, rest) :- ParseSelect(if byName then afterUnion[|BY_NAME|..] else afterUnion);
      var (branches, end) :- ParseBranches(rest);
      Some(([Branch(byName, select)] + branches, end))
    else Some(([], ts))
  }

  /** The names in CREATE SCHEMA ... created; CREATE VIEW schema.name AS, and what follows. */
  function ParseHeader(ts: seq<Token>): Option<(string, string, string, seq<Token>)> {
    var afterCreate :- Expect(ts, CREATE_SCHEMA);
    var (created, afterCreated) :- ExpectName(afterCreate);
    var afterView :- Expect(afterCreated, CREATE_VIEW);
    var (schema, afterSchema) :- ExpectName(afterView);
    var afterDot :- Expect(afterSchema, DOT);
    var (name, afterName) :- ExpectName(afterDot);
    var afterAs :- Expect(afterName, AS);
    Some((created, schema, name, afterAs))
  }

  function ParseScript(ts: seq<Token>): Option<ViewScript<seq<Token>>> {
    var (created, schema, name, afterAs) :- ParseHeader(ts);
    var (first, afterFirst) :- ParseSelect(afterAs);
    var (rest, end) :- ParseBranches(afterFirst);
    if end == [Symbol(';')] then Some(ViewScript(created, schema, name, first, rest)) else None
  }

  function ParseText(text: string): Option<ViewScript<seq<Token>>> {
    var ts :- Lex(text);
    ParseScript(ts)
  }

  // ----- from printed to parsed trees -----

  function TypeTokens(dataType: string): seq<Token> {
    match Lex(dataType) case Some(ts) => ts case None => []
  }

  function ParsedItem(item: Item<string>): Item<seq<Token>> {
    match item
    case Tag(value, column) => Tag(value, column)
    case Cast(physical, dataType, logical) => Cast(physical, TypeTokens(dataType), logical)
    case Star => Star
  }

  function ParsedSelect(s: Select<string>): Select<seq<Token>> { Select(Map(ParsedItem, s.items), s.source) }

  function ParsedBranch(b: Branch<string>): Branch<seq<Token>> { Branch(b.byName, ParsedSelect(b.select)) }

  function ParsedScript(v: ViewScript<string>): ViewScript<seq<Token>> {
    ViewScript(v.created, v.schema, v.name, ParsedSelect(v.first), Map(ParsedBranch, v.rest))
  }

  // ----- token form of a tree -----

  function ItemTokens(item: Item<seq<Token>>): seq<Token> {
    match item
    case Tag(value, column) => [Literal(value)] + (AS + [Quoted(column)])
    case Cast(physical, dataType, logical) =>
      CAST_OPEN + ([Quoted(physical)] + (AS + (dataType + (CLOSE_AS + [Quoted(logical)]))))
    case Star => [Symbol('*')]
  }

  function ItemsTokens(items: seq<Item<seq<Token>>>): seq<Token> {
    if items == [] then []
    else if |items| == 1 then ItemTokens(items[0])
    else ItemTokens(items[0]) + (COMMA + ItemsTokens(items[1..]))
  }

  function PathTokens(path: seq<string>): seq<Token> {
    if path == [] then []
    else if |path| == 1 then [Quoted(path[0])]
    else [Quoted(path[0])] + (DOT + PathTokens(path[1..]))
  }

  function SelectTokens(s: Select<seq<Token>>): seq<Token> {
    SELECT + (ItemsTokens(s.items) + (FROM + PathTokens(s.source)))
  }

  function BranchesTokens(branches: seq<Branch<seq<Token>>>): seq<Token> {
    if branches == [] then []
    else
      UNION_ALL + ((if branches[0].byName then BY_NAME else [])
      + (SelectTokens(branches[0].select) + BranchesTokens(branches[1..])))
  }

  function HeaderTokens(created: string, schema: string, name: string, rest: seq<Token>): seq<Token> {
    CREATE_SCHEMA
    + ([Quoted(created)] + (CREATE_VIEW + ([Quoted(schema)] + (DOT + ([Quoted(name)] + (AS + rest))))))
  }

  function ScriptTokens(v: ViewScript<seq<Token>>): seq<Token> {
    HeaderTokens(v.created, v.schema, v.name,
                 SelectTokens(v.first) + (BranchesTokens(v.rest) + [Symbol(';')]))
  }

  // ----- what prints to text that parses back -----

  /** Parentheses are balanced, and nothing is quoted. */
  predicate Balanced(ts: seq<Token>, depth: nat) {
    if ts == [] then depth == 0
    else if ts[0].Quoted? || ts[0].Literal? then false
    else if ts[0] == Symbol(')') then depth > 0 && Balanced(ts[1..], depth - 1)
    else Balanced(ts[1..], if ts[0] == Symbol('(') then depth + 1 else depth)
  }

  predicate BalancedItem(item: Item<seq<Token>>) { item.Cast? ==> Balanced(item.dataType, 0) }

  predicate BalancedSelect(s: Select<seq<Token>>) { forall i :: 0 <= i < |s.items| ==> BalancedItem(s.items[i]) }

  predicate BalancedScript(v: ViewScript<seq<Token>>) {
    && BalancedSelect(v.first)
    && forall i :: 0 <= i < |v.rest| ==> BalancedSelect(v.rest[i].select)
  }

  /** Every select has a column and a source. */
  predicate CompleteSelect<D>(s: Select<D>) { s.items != [] && s.source != [] }

  predicate CompleteScript<D>(v: ViewScript<D>) {
    && CompleteSelect(v.first)
    && forall i :: 0 <= i < |v.rest| ==> CompleteSelect(v.rest[i].select)
  }

  lemma ExpectPrefix(prefix: seq<Token>, rest: seq<Token>)
    ensures Expect(prefix + rest, prefix) == Some(rest)
    ensures prefix <= prefix + rest && (prefix + rest)[|prefix|..] == rest
  {
  }

  lemma PrefixStarts(prefix: seq<Token>, ts: seq<Token>)
    requires prefix != []
    ensures prefix <= ts ==> ts != [] && ts[0] == prefix[0]
  {
  }

  lemma {:induction false} TypeEndOfBalanced(ts: seq<Token>, depth: nat, rest: seq<Token>)
    requires Balanced(ts, depth)
    ensures TypeEnd(ts + ([Symbol(')')] + rest), depth) == Some(|ts|)
  {
    var all := ts + ([Symbol(')')] + rest);
    if ts == [] {
      assert all[0] == Symbol(')');
    } else {
      assert all[0] == ts[0] && all[1..] == ts[1..] + ([Symbol(')')] + rest);
      TypeEndOfBalanced(ts[1..], if ts[0] == Symbol('(') then depth + 1
                                 else if ts[0] == Symbol(')') then depth - 1
                                 else depth, rest);
    }
  }

  lemma {:induction false} TypeBeforeEndIsBalanced(ts: seq<Token>, depth: nat)
    requires TypeEnd(ts, depth).Some?
    ensures Balanced(ts[..TypeEnd(ts, depth).value], depth)
  {
    if !(ts[0] == Symbol(')') && depth == 0) {
      var next := if ts[0] == Symbol('(') then depth + 1
                  else if ts[0] == Symbol(')') then depth - 1
                  else depth;
      TypeBeforeEndIsBalanced(ts[1..], next);
      var n := TypeEnd(ts[1..], next).value;
      assert ts[..n + 1][1..] == ts[1..][..n];
    }
  }

  lemma ItemRoundTrip(item: Item<seq<Token>>, rest: seq<Token>)
    requires BalancedItem(item)
    ensures ParseItem(ItemTokens(item) + rest) == Some((item, rest))
  {
    match item
    case Tag(value, column) =>
      var ts := ItemTokens(item) + rest;
      assert ts[1..] == AS + ([Quoted(column)] + rest);
      ExpectPrefix(AS, [Quoted(column)] + rest);
      assert ([Quoted(column)] + rest)[1..] == rest;
    case Star =>
    case Cast(physical, dataType, logical) =>
      CastRoundTrip(physical, dataType, logical, rest);
      Regroup6(CAST_OPEN, [Quoted(physical)], AS, dataType, CLOSE_AS, [Quoted(logical)], rest);
  }

  lemma Regroup6(a: seq<Token>, b: seq<Token>, c: seq<Token>, d: seq<Token>, e: seq<Token>, f: seq<Token>,
                 g: seq<Token>)
    ensures a + (b + (c + (d + (e + f)))) + g == a + (b + (c + (d + (e + (f + g)))))
  {
  }

  lemma {:induction false} CastRoundTrip(physical: string, dataType: seq<Token>, logical: string, rest: seq<Token>)
    requires Balanced(dataType, 0)
    ensures ParseItem(CAST_OPEN + ([Quoted(physical)] + (AS + (dataType + (CLOSE_AS + ([Quoted(logical)] + rest)))))) ==
            Some((Cast(physical, dataType, logical), rest))
  {
    var end := [Quoted(logical)] + rest;
    var afterAs := dataType + (CLOSE_AS + end);
    ExpectPrefix(CAST_OPEN, [Quoted(physical)] + (AS + afterAs));
    NameFirst(physical, AS + afterAs);
    ExpectPrefix(AS, afterAs);
    TypeThenClose(dataType, end);
    ExpectPrefix(CLOSE_AS, end);
    NameFirst(logical, rest);
  }

  lemma {:induction false} TypeThenClose(dataType: seq<Token>, end: seq<Token>)
    requires Balanced(dataType, 0)
    ensures var ts := dataType + (CLOSE_AS + end);
            TypeEnd(ts, 0) == Some(|dataType|) && ts[|dataType|..] == CLOSE_AS + end && ts[..|dataType|] == dataType
  {
    Associative([Symbol(')')], AS, end);
    TypeEndOfBalanced(dataType, 0, AS + end);
    SplitAtEnd(dataType, CLOSE_AS + end);
  }

  lemma SplitAtEnd(a: seq<Token>, b: seq<Token>)
    ensures (a + b)[|a|..] == b && (a + b)[..|a|] == a
  {
  }

  lemma {:induction false} ItemsRoundTrip(items: seq<Item<seq<Token>>>, rest: seq<Token>)
    requires items != [] && forall i :: 0 <= i < |items| ==> BalancedItem(items[i])
    requires !(COMMA <= rest)
    ensures ParseItems(ItemsTokens(items) + rest) == Some((items, rest))
  {
    var item := items[0];
    if |items| == 1 {
      ItemRoundTrip(item, rest);
      LastItem(ItemTokens(item) + rest, item, rest);
      assert items == [item];
    } else {
      var tail := ItemsTokens(items[1..]) + rest;
      ItemRoundTrip(item, COMMA + tail);
      ItemsRoundTrip(items[1..], rest);
      AnotherItem(ItemTokens(item) + (COMMA + tail), item, tail, items[1..], rest);
      Regroup(ItemTokens(item), COMMA, ItemsTokens(items[1..]), rest);
      assert items == [item] + items[1..];
    }
  }

  lemma {:induction false} LastItem(ts: seq<Token>, item: Item<seq<Token>>, rest: seq<Token>)
    requires ParseItem(ts) == Some((item, rest)) && !(COMMA <= rest)
    ensures ParseItems(ts) == Some(([item], rest))
  {
  }

  lemma {:induction false} AnotherItem(ts: seq<Token>, item: Item<seq<Token>>, tail: seq<Token>,
                                       items: seq<Item<seq<Token>>>,
                    end: seq<Token>)
    requires ParseItem(ts) == Some((item, COMMA + tail)) && ParseItems(tail) == Some((items, end))
    ensures ParseItems(ts) == Some(([item] + items, end))
  {
  }

  lemma Regroup(a: seq<Token>, b: seq<Token>, c: seq<Token>, d: seq<Token>)
    ensures a + (b + c) + d == a + (b + (c + d))
  {
  }

  lemma {:induction false} PathRoundTrip(path: seq<string>, rest: seq<Token>)
    requires path != []
    requires !(DOT <= rest)
    ensures ParsePath(PathTokens(path) + rest) == Some((path, rest))
  {
    if |path| == 1 {
      NameFirst(path[0], rest);
      assert path == [path[0]];
    } else {
      var tail := PathTokens(path[1..]) + rest;
      PathRoundTrip(path[1..], rest);
      AnotherName(path[0], tail, path[1..], rest);
      Regroup([Quoted(path[0])], DOT, PathTokens(path[1..]), rest);
      assert path == [path[0]] + path[1..];
    }
  }

  lemma {:induction false} AnotherName(name: string, tail: seq<Token>, names: seq<string>, end: seq<Token>)
    requires ParsePath(tail) == Some((names, end))
    ensures ParsePath([Quoted(name)] + (DOT + tail)) == Some(([name] + names, end))
  {
  }

  lemma SelectRoundTrip(s: Select<seq<Token>>, rest: seq<Token>)
    requires CompleteSelect(s) && BalancedSelect(s)
    requires !(DOT <= rest)
    ensures ParseSelect(SelectTokens(s) + rest) == Some((s, rest))
  {
    var afterFrom := PathTokens(s.source) + rest;
    var afterItems := FROM + afterFrom;
    var afterSelect := ItemsTokens(s.items) + afterItems;
    Regroup4(SELECT, ItemsTokens(s.items), FROM, PathTokens(s.source), rest);
    ExpectPrefix(SELECT, afterSelect);
    assert afterItems[0] == Word("FROM");
    ItemsRoundTrip(s.items, afterItems);
    ExpectPrefix(FROM, afterFrom);
    PathRoundTrip(s.source, rest);
  }

  lemma {:induction false} BranchesRoundTrip(branches: seq<Branch<seq<Token>>>)
    requires forall i :: 0 <= i < |branches| ==>
               CompleteSelect(branches[i].select) && BalancedSelect(branches[i].select)
    ensures ParseBranches(BranchesTokens(branches) + [Symbol(';')]) == Some((branches, [Symbol(';')]))
  {
    if branches == [] {
      assert BranchesTokens(branches) + [Symbol(';')] == [Symbol(';')];
    } else {
      BranchesRoundTrip(branches[1..]);
      OneMoreBranch(branches);
    }
  }

  lemma {:induction false} OneMoreBranch(branches: seq<Branch<seq<Token>>>)
    requires branches != [] && CompleteSelect(branches[0].select) && BalancedSelect(branches[0].select)
    requires ParseBranches(BranchesTokens(branches[1..]) + [Symbol(';')]) == Some((branches[1..], [Symbol(';')]))
    ensures ParseBranches(BranchesTokens(branches) + [Symbol(';')]) == Some((branches, [Symbol(';')]))
  {
    var tail := BranchesTokens(branches[1..]) + [Symbol(';')];
    NoDotBefore(branches[1..]);
    SelectRoundTrip(branches[0].select, tail);
    AnotherBranch(branches[0].byName, branches[0].select, tail, branches[1..]);
    FirstBranch(branches, [Symbol(';')]);
    assert branches == [branches[0]] + branches[1..];
  }

  lemma {:induction false} NoDotBefore(branches: seq<Branch<seq<Token>>>)
    ensures !(DOT <= BranchesTokens(branches) + [Symbol(';')])
  {
    var ts := BranchesTokens(branches) + [Symbol(';')];
    assert UNION_ALL[0] == Word("UNION");
    assert ts[0] == if branches == [] then Symbol(';') else UNION_ALL[0];
    PrefixStarts(DOT, ts);
  }

  lemma {:induction false} FirstBranch(branches: seq<Branch<seq<Token>>>, end: seq<Token>)
    requires branches != []
    ensures BranchesTokens(branches) + end ==
            UNION_ALL + ((if branches[0].byName then BY_NAME else [])
            + (SelectTokens(branches[0].select) + (BranchesTokens(branches[1..]) + end)))
  {
    var (u, m) := (UNION_ALL, if branches[0].byName then BY_NAME else []);
    var (s, t) := (SelectTokens(branches[0].select), BranchesTokens(branches[1..]));
    assert BranchesTokens(branches) == u + (m + (s + t));
    Regroup4(u, m, s, t, end);
  }

  lemma Regroup4(a: seq<Token>, b: seq<Token>, c: seq<Token>, d: seq<Token>, e: seq<Token>)
    ensures a + (b + (c + d)) + e == a + (b + (c + (d + e)))
  {
  }

  lemma Associative(a: seq<Token>, b: seq<Token>, c: seq<Token>)
    ensures a + b + c == a + (b + c)
  {
  }

  lemma {:induction false} AnotherBranch(byName: bool, select: Select<seq<Token>>, tail: seq<Token>,
                                         branches: seq<Branch<seq<Token>>>)
    requires ParseSelect(SelectTokens(select) + tail) == Some((select, tail))
    requires ParseBranches(tail) == Some((branches, [Symbol(';')]))
    ensures ParseBranches(UNION_ALL + ((if byName then BY_NAME else []) + (SelectTokens(select) + tail))) ==
            Some(([Branch(byName, select)] + branches, [Symbol(';')]))
  {
    var afterMode := SelectTokens(select) + tail;
    var mode := if byName then BY_NAME else [];
    ExpectPrefix(UNION_ALL, mode + afterMode);
    ExpectPrefix(mode, afterMode);
    assert afterMode[0] == Word("SELECT");
    assert !byName ==> mode + afterMode == afterMode;
  }

  lemma NameFirst(name: string, rest: seq<Token>)
    ensures ExpectName([Quoted(name)] + rest) == Some((name, rest))
  {
  }

  lemma HeaderRoundTrip(created: string, schema: string, name: string, rest: seq<Token>)
    ensures ParseHeader(HeaderTokens(created, schema, name, rest)) == Some((created, schema, name, rest))
  {
    var afterName := AS + rest;
    var afterDot := [Quoted(name)] + afterName;
    var afterSchema := DOT + afterDot;
    var afterView := [Quoted(schema)] + afterSchema;
    var afterCreated := CREATE_VIEW + afterView;
    var afterCreate := [Quoted(created)] + afterCreated;
    ExpectPrefix(CREATE_SCHEMA, afterCreate);
    NameFirst(created, afterCreated);
    ExpectPrefix(CREATE_VIEW, afterView);
    NameFirst(schema, afterSchema);
    ExpectPrefix(DOT, afterDot);
    NameFirst(name, afterName);
    ExpectPrefix(AS, rest);
  }

  lemma ScriptRoundTrip(v: ViewScript<seq<Token>>)
    requires CompleteScript(v) && BalancedScript(v)
    ensures ParseScript(ScriptTokens(v)) == Some(v)
  {
    var afterFirst := BranchesTokens(v.rest) + [Symbol(';')];
    HeaderRoundTrip(v.created, v.schema, v.name, SelectTokens(v.first) + afterFirst);
    BranchesRoundTrip(v.rest);
    NoDotBefore(v.rest);
    SelectRoundTrip(v.first, afterFirst);
  }

  // ----- the parser only returns balanced types -----

  lemma ParsedItemIsBalanced(ts: seq<Token>)
    ensures ParseItem(ts).Some? ==> BalancedItem(ParseItem(ts).value.0)
  {
    var r := ParseItem(ts);
    if r.Some? && r.value.0.Cast? {
      var afterAs := Expect(ExpectName(Expect(ts, CAST_OPEN).value).value.1, AS).value;
      TypeBeforeEndIsBalanced(afterAs, 0);
    }
  }

  lemma {:induction false} ParsedItemsAreBalanced(ts: seq<Token>)
    ensures ParseItems(ts).Some? ==>
              forall i :: 0 <= i < |ParseItems(ts).value.0| ==> BalancedItem(ParseItems(ts).value.0[i])
    decreases |ts|
  {
    ParsedItemIsBalanced(ts);
    var r := ParseItem(ts);
    if r.Some? && COMMA <= r.value.1 {
      ParsedItemsAreBalanced(r.value.1[1..]);
    }
  }

  lemma ParsedSelectIsBalanced(ts: seq<Token>)
    ensures ParseSelect(ts).Some? ==> BalancedSelect(ParseSelect(ts).value.0)
  {
    if SELECT <= ts { ParsedItemsAreBalanced(ts[|SELECT|..]); }
  }

  lemma {:induction false} ParsedBranchesAreBalanced(ts: seq<Token>)
    ensures ParseBranches(ts).Some? ==>
              forall i :: 0 <= i < |ParseBranches(ts).value.0| ==> BalancedSelect(ParseBranches(ts).value.0[i].select)
    decreases |ts|
  {
    if UNION_ALL <= ts {
      var afterUnion := ts[|UNION_ALL|..];
      var start := if BY_NAME <= afterUnion then afterUnion[|BY_NAME|..] else afterUnion;
      ParsedSelectIsBalanced(start);
      if ParseSelect(start).Some? { ParsedBranchesAreBalanced(ParseSelect(start).value.1); }
    }
  }

  lemma ParsedScriptIsBalanced(ts: seq<Token>)
    ensures ParseScript(ts).Some? ==> BalancedScript(ParseScript(ts).value)
  {
    if ParseScript(ts).Some? {
      var afterAs := ParseHeader(ts).value.3;
      ParsedSelectIsBalanced(afterAs);
      ParsedBranchesAreBalanced(ParseSelect(afterAs).value.1);
    }
  }
}
