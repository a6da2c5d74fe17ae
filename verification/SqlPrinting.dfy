/** The generated text parses back: every quoted name and value survives, whatever it contains. */
module SqlPrinting {
  import opened Wrappers
  import opened Lists
  import opened SqlText
  import opened SqlGrammar

  // ----- the tokens of the fixed text -----

  lemma {:induction false} SpacedIsPlain(words: seq<string>)
    requires forall w :: w in words ==> IsWord(w)
    ensures IsPlain(Spaced(words))
    ensures words != [] ==> Spaced(words) != "" && Spaced(words)[|Spaced(words)| - 1] == ' '
  {
    if words != [] {
      SpacedIsPlain(words[1..]);
      assert IsWord(words[0]);
      assert Spaced(words) == words[0] + " " + Spaced(words[1..]);
      assert |words| == 1 ==> Spaced(words[1..]) == "";
    }
  }

  /** Words behind one space, a line break, or nothing. */
  lemma {:induction false} LexKeywords(p: Piece, lead: string, words: seq<string>)
    requires words != [] && forall w :: w in words ==> IsWord(w)
    requires lead == "" || (|lead| == 1 && IsSpace(lead[0]))
    requires p == Plain(lead + Spaced(words))
    ensures Ended(p) && TokensOf(p) == Words(words)
  {
    LexSpaced(words);
    SpacedIsPlain(words);
    if lead == "" {
      assert lead + Spaced(words) == Spaced(words);
    } else {
      LexSpaceThen(lead[0], Spaced(words));
      assert lead == [lead[0]];
    }
  }

  /** A piece made of a symbol or of plain text with known tokens, and more plain text. */
  lemma {:induction false} LexBoth(p: Piece, a: string, ts: seq<Token>, q: Piece)
    requires IsPlain(a) && Lex(a) == Some(ts) && a != "" && !IsWordChar(a[|a| - 1])
    requires Ended(q) && q.Plain?
    requires p == Plain(a + q.text)
    ensures Ended(p) && TokensOf(p) == ts + TokensOf(q)
  {
    LexEnded(q);
    LexPlain(a, q.text);
    EndOfConcat(a, q.text);
  }

  lemma EndOfConcat(a: string, b: string)
    requires IsPlain(a) && Ended(Plain(b))
    ensures Ended(Plain(a + b))
  {
  }

  lemma {:induction false} LexEnded(q: Piece)
    requires Ended(q) && q.Plain?
    ensures Lex(q.text) == Some(TokensOf(q))
  {
    LexPlain(q.text, "");
  }

  lemma LexSymbol(p: Piece, c: char)
    requires IsSymbol(c) && p == Plain([c])
    ensures Ended(p) && TokensOf(p) == [Symbol(c)] && Lex(p.text) == Some([Symbol(c)])
  {
    LexSymbolThen(c, "");
    assert [c] + "" == [c] && Lex("") == Some([]);
  }

  lemma LexAs()
    ensures Ended(AS_TEXT) && TokensOf(AS_TEXT) == AS
  {
    assert " AS " == " " + Spaced(["AS"]);
    LexKeywords(AS_TEXT, " ", ["AS"]);
  }

  lemma LexSelect()
    ensures Ended(SELECT_TEXT) && TokensOf(SELECT_TEXT) == SELECT
  {
    assert "SELECT " == "" + Spaced(["SELECT"]);
    LexKeywords(SELECT_TEXT, "", ["SELECT"]);
  }

  lemma LexFrom()
    ensures Ended(FROM_TEXT) && TokensOf(FROM_TEXT) == FROM
  {
    assert " FROM " == " " + Spaced(["FROM"]);
    LexKeywords(FROM_TEXT, " ", ["FROM"]);
  }

  lemma LexUnionAll()
    ensures Ended(UNION_ALL_TEXT) && TokensOf(UNION_ALL_TEXT) == UNION_ALL
  {
    assert " UNION ALL " == " " + Spaced(["UNION", "ALL"]);
    LexKeywords(UNION_ALL_TEXT, " ", ["UNION", "ALL"]);
  }

  lemma WordsOfConcat()
    ensures Words(["UNION", "ALL", "BY", "NAME"]) == UNION_ALL + BY_NAME
  {
  }

  lemma SpelledUnionAllByName()
    ensures UNION_ALL_BY_NAME_TEXT == Plain(" " + Spaced(["UNION", "ALL", "BY", "NAME"]))
  {
    assert Spaced(["UNION", "ALL", "BY", "NAME"]) == "UNION ALL BY NAME ";
  }

  lemma LexUnionAllByName()
    ensures Ended(UNION_ALL_BY_NAME_TEXT) && TokensOf(UNION_ALL_BY_NAME_TEXT) == UNION_ALL + BY_NAME
  {
    SpelledUnionAllByName();
    LexKeywords(UNION_ALL_BY_NAME_TEXT, " ", ["UNION", "ALL", "BY", "NAME"]);
    WordsOfConcat();
  }

  lemma JoinedCreateSchema(rest: string)
    requires rest == "IF NOT EXISTS "
    ensures "CREATE" + " " + ("SCHEMA" + " " + rest) == "CREATE SCHEMA IF NOT EXISTS "
  {
  }

  lemma SpelledCreateSchema()
    ensures CREATE_SCHEMA_TEXT == Plain("" + Spaced(["CREATE", "SCHEMA", "IF", "NOT", "EXISTS"]))
  {
    var end := ["IF", "NOT", "EXISTS"];
    SpelledIfNotExists();
    SpacedTwo("CREATE", "SCHEMA", end);
    assert ["CREATE", "SCHEMA"] + end == ["CREATE", "SCHEMA", "IF", "NOT", "EXISTS"];
    JoinedCreateSchema(Spaced(end));
  }

  lemma SpelledIfNotExists()
    ensures Spaced(["IF", "NOT", "EXISTS"]) == "IF NOT EXISTS "
  {
  }

  lemma {:induction false} SpacedTwo(a: string, b: string, words: seq<string>)
    ensures Spaced([a, b] + words) == a + " " + (b + " " + Spaced(words))
  {
  }

  lemma LexCreateSchema()
    ensures Ended(CREATE_SCHEMA_TEXT) && TokensOf(CREATE_SCHEMA_TEXT) == CREATE_SCHEMA
  {
    SpelledCreateSchema();
    LexKeywords(CREATE_SCHEMA_TEXT, "", ["CREATE", "SCHEMA", "IF", "NOT", "EXISTS"]);
  }

  lemma SpelledCreateView()
    ensures CREATE_VIEW_TEXT == Plain(END_TEXT.text + ("\n" + Spaced(["CREATE", "VIEW"])))
  {
  }

  lemma LexCreateView()
    ensures Ended(CREATE_VIEW_TEXT) && TokensOf(CREATE_VIEW_TEXT) == CREATE_VIEW
  {
    var rest := Plain("\n" + Spaced(["CREATE", "VIEW"]));
    LexKeywords(rest, "\n", ["CREATE", "VIEW"]);
    LexSymbol(END_TEXT, ';');
    SpelledCreateView();
    LexBoth(CREATE_VIEW_TEXT, END_TEXT.text, [Symbol(';')], rest);
  }

  lemma LexCast()
    ensures Ended(CAST_TEXT) && TokensOf(CAST_TEXT) == CAST_OPEN
  {
    assert "CAST(" == "CAST" + (['('] + "");
    LexSymbolThen('(', "");
    LexWordThen("CAST", ['('] + "");
    assert Lex("") == Some([]);
  }

  lemma LexComma()
    ensures Ended(COMMA_TEXT) && TokensOf(COMMA_TEXT) == COMMA
  {
  }

  predicate PlainType(dataType: string) { IsPlain(dataType) }

  lemma LexTypeAs(dataType: string)
    requires PlainType(dataType)
    ensures Ended(TypeText(dataType)) && TokensOf(TypeText(dataType)) == AS + (TypeTokens(dataType) + CLOSE_AS)
  {
    var close := Plain([')'] + AS_TEXT.text);
    var rest := Plain(dataType + close.text);
    LexAs();
    LexSymbol(Plain([')']), ')');
    LexBoth(close, [')'], [Symbol(')')], AS_TEXT);
    LexTypeThen(dataType, close);
    LexEnded(AS_TEXT);
    assert TypeText(dataType).text == AS_TEXT.text + rest.text;
    LexBoth(TypeText(dataType), AS_TEXT.text, AS, rest);
  }

  lemma LexTypeThen(dataType: string, close: Piece)
    requires PlainType(dataType) && Ended(close) && close.Plain? && close.text[0] == ')'
    ensures Ended(Plain(dataType + close.text))
    ensures TokensOf(Plain(dataType + close.text)) == TypeTokens(dataType) + TokensOf(close)
  {
    LexEnded(close);
    LexPlain(dataType, close.text);
    EndOfConcat(dataType, close.text);
  }

  // ----- pieces and tokens agree -----

  predicate PlainItem(item: Item<string>) { item.Cast? ==> PlainType(item.dataType) }

  predicate PlainSelect(s: Select<string>) { forall i :: 0 <= i < |s.items| ==> PlainItem(s.items[i]) }

  predicate PlainScript(v: ViewScript<string>) {
    PlainSelect(v.first) && forall i :: 0 <= i < |v.rest| ==> PlainSelect(v.rest[i].select)
  }

  /** Pieces that can be put between plain pieces, and lex to the given tokens. */
  ghost predicate Prints(ps: seq<Piece>, ts: seq<Token>) {
    WellSpaced(ps) && ps != [] && Tokens(ps) == ts
  }

  lemma PrintsOne(p: Piece)
    requires Ended(p)
    ensures Prints([p], TokensOf(p))
  {
    FirstPiece([p]);
    assert [p][1..] == [] && TokensOf(p) + [] == TokensOf(p);
  }

  lemma PrintsBoth(ps: seq<Piece>, ts: seq<Token>, qs: seq<Piece>, us: seq<Token>)
    requires Prints(ps, ts) && Prints(qs, us)
    requires ps[|ps| - 1].Plain? || qs[0].Plain?
    ensures Prints(ps + qs, ts + us)
  {
    WellSpacedConcat(ps, qs);
    PiecesOfConcat(ps, qs);
  }

  lemma PrintsThen(p: Piece, ts: seq<Token>, qs: seq<Piece>, us: seq<Token>)
    requires Ended(p) && TokensOf(p) == ts && Prints(qs, us)
    requires p.Plain? || qs[0].Plain?
    ensures Prints([p] + qs, ts + us)
  {
    PrintsOne(p);
    PrintsBoth([p], ts, qs, us);
  }

  lemma PrintsItem(item: Item<string>)
    requires PlainItem(item)
    ensures Prints(ItemPieces(item), ItemTokens(ParsedItem(item)))
  {
    match item
    case Tag(value, column) =>
      LexAs();
      PrintsOne(Name(column));
      PrintsThen(AS_TEXT, AS, [Name(column)], [Quoted(column)]);
      PrintsThen(Value(value), [Literal(value)], [AS_TEXT] + [Name(column)], AS + [Quoted(column)]);
      assert [Value(value)] + ([AS_TEXT] + [Name(column)]) == ItemPieces(item);
    case Cast(physical, dataType, logical) =>
      PrintsCast(physical, dataType, logical);
    case Star =>
      LexSymbol(STAR_TEXT, '*');
      PrintsOne(STAR_TEXT);
  }

  lemma PrintsCast(physical: string, dataType: string, logical: string)
    requires PlainType(dataType)
    ensures Prints([CAST_TEXT, Name(physical), TypeText(dataType), Name(logical)],
                   ItemTokens(Cast(physical, TypeTokens(dataType), logical)))
  {
    var (t, middle) := (TypeText(dataType), AS + (TypeTokens(dataType) + CLOSE_AS));
    LexCast();
    LexTypeAs(dataType);
    PrintsOne(Name(logical));
    PrintsThen(t, middle, [Name(logical)], [Quoted(logical)]);
    PrintsThen(Name(physical), [Quoted(physical)], [t] + [Name(logical)], middle + [Quoted(logical)]);
    PrintsThen(CAST_TEXT, CAST_OPEN, [Name(physical)] + ([t] + [Name(logical)]),
               [Quoted(physical)] + (middle + [Quoted(logical)]));
    assert [CAST_TEXT] + ([Name(physical)] + ([t] + [Name(logical)])) ==
           [CAST_TEXT, Name(physical), t, Name(logical)];
    Associative(AS, TypeTokens(dataType) + CLOSE_AS, [Quoted(logical)]);
    Associative(TypeTokens(dataType), CLOSE_AS, [Quoted(logical)]);
  }

  lemma {:induction false} PrintsItems(items: seq<Item<string>>)
    requires items != [] && forall i :: 0 <= i < |items| ==> PlainItem(items[i])
    ensures Prints(ItemsPieces(items), ItemsTokens(Map(ParsedItem, items)))
  {
    PrintsItem(items[0]);
    if |items| > 1 {
      var parsed := Map(ParsedItem, items);
      assert parsed[1..] == Map(ParsedItem, items[1..]);
      PrintsItems(items[1..]);
      LexComma();
      PrintsThen(COMMA_TEXT, COMMA, ItemsPieces(items[1..]), ItemsTokens(parsed[1..]));
      PrintsBoth(ItemPieces(items[0]), ItemTokens(parsed[0]),
                 [COMMA_TEXT] + ItemsPieces(items[1..]), COMMA + ItemsTokens(parsed[1..]));
    }
  }

  lemma {:induction false} PrintsPath(path: seq<string>)
    requires path != []
    ensures Prints(PathPieces(path), PathTokens(path))
    ensures PathPieces(path)[|PathPieces(path)| - 1].Name?
  {
    PrintsOne(Name(path[0]));
    if |path| > 1 {
      LexSymbol(DOT_TEXT, '.');
      PrintsPath(path[1..]);
      PrintsThen(DOT_TEXT, DOT, PathPieces(path[1..]), PathTokens(path[1..]));
      PrintsThen(Name(path[0]), [Quoted(path[0])],
                 [DOT_TEXT] + PathPieces(path[1..]), DOT + PathTokens(path[1..]));
    }
  }

  lemma PrintsSelect(s: Select<string>)
    requires CompleteSelect(s) && PlainSelect(s)
    ensures Prints(SelectPieces(s), SelectTokens(ParsedSelect(s)))
    ensures SelectPieces(s)[0].Plain?
  {
    var (items, from) := (ItemsPieces(s.items), PathPieces(s.source));
    var (itemTokens, fromTokens) := (ItemsTokens(Map(ParsedItem, s.items)), PathTokens(s.source));
    LexSelect();
    LexFrom();
    PrintsItems(s.items);
    PrintsPath(s.source);
    PrintsThen(FROM_TEXT, FROM, from, fromTokens);
    PrintsBoth(items, itemTokens, [FROM_TEXT] + from, FROM + fromTokens);
    PrintsThen(SELECT_TEXT, SELECT, items + ([FROM_TEXT] + from), itemTokens + (FROM + fromTokens));
  }

  lemma {:induction false} PrintsBranches(branches: seq<Branch<string>>)
    requires forall i :: 0 <= i < |branches| ==> CompleteSelect(branches[i].select) && PlainSelect(branches[i].select)
    ensures Prints(BranchesPieces(branches) + [END_TEXT], BranchesTokens(Map(ParsedBranch, branches)) + [Symbol(';')])
    ensures (BranchesPieces(branches) + [END_TEXT])[0].Plain?
  {
    var parsed := Map(ParsedBranch, branches);
    if branches == [] {
      LexSymbol(END_TEXT, ';');
      PrintsOne(END_TEXT);
      assert BranchesPieces(branches) + [END_TEXT] == [END_TEXT];
      assert BranchesTokens(parsed) + [Symbol(';')] == [Symbol(';')];
    } else {
      PrintsBranches(branches[1..]);
      assert parsed[1..] == Map(ParsedBranch, branches[1..]);
      var tail := BranchesPieces(branches[1..]) + [END_TEXT];
      PrintsBranch(branches[0], tail, BranchesTokens(parsed[1..]) + [Symbol(';')]);
      FirstBranch(parsed, [Symbol(';')]);
      FirstBranchPieces(branches);
    }
  }

  lemma {:induction false} FirstBranchPieces(branches: seq<Branch<string>>)
    requires branches != []
    ensures BranchesPieces(branches) + [END_TEXT] ==
            [UnionText(branches[0].byName)]
            + (SelectPieces(branches[0].select) + (BranchesPieces(branches[1..]) + [END_TEXT]))
  {
  }

  lemma PrintsBranch(branch: Branch<string>, tail: seq<Piece>, tailTokens: seq<Token>)
    requires CompleteSelect(branch.select) && PlainSelect(branch.select)
    requires Prints(tail, tailTokens) && tail[0].Plain?
    ensures Prints([UnionText(branch.byName)] + (SelectPieces(branch.select) + tail),
                   UNION_ALL + ((if branch.byName then BY_NAME else [])
                   + (SelectTokens(ParsedSelect(branch.select)) + tailTokens)))
  {
    var (ps, ts) := (SelectPieces(branch.select), SelectTokens(ParsedSelect(branch.select)));
    var mode := if branch.byName then BY_NAME else [];
    LexUnionAll();
    LexUnionAllByName();
    assert UNION_ALL + [] == UNION_ALL;
    PrintsSelect(branch.select);
    PrintsBoth(ps, ts, tail, tailTokens);
    PrintsThen(UnionText(branch.byName), UNION_ALL + mode, ps + tail, ts + tailTokens);
    Associative(UNION_ALL, mode, ts + tailTokens);
  }

  lemma PrintsHeader(created: string, schema: string, name: string, body: seq<Piece>, bodyTokens: seq<Token>)
    requires Prints(body, bodyTokens)
    ensures Prints(HeaderPieces(created, schema, name, body), HeaderTokens(created, schema, name, bodyTokens))
  {
    LexCreateSchema();
    LexCreateView();
    LexSymbol(DOT_TEXT, '.');
    LexAs();
    PrintsThen(AS_TEXT, AS, body, bodyTokens);
    var (p0, t0) := ([AS_TEXT] + body, AS + bodyTokens);
    PrintsThen(Name(name), [Quoted(name)], p0, t0);
    var (p1, t1) := ([Name(name)] + p0, [Quoted(name)] + t0);
    PrintsThen(DOT_TEXT, DOT, p1, t1);
    var (p2, t2) := ([DOT_TEXT] + p1, DOT + t1);
    PrintsThen(Name(schema), [Quoted(schema)], p2, t2);
    var (p3, t3) := ([Name(schema)] + p2, [Quoted(schema)] + t2);
    PrintsThen(CREATE_VIEW_TEXT, CREATE_VIEW, p3, t3);
    var (p4, t4) := ([CREATE_VIEW_TEXT] + p3, CREATE_VIEW + t3);
    PrintsThen(Name(created), [Quoted(created)], p4, t4);
    PrintsThen(CREATE_SCHEMA_TEXT, CREATE_SCHEMA, [Name(created)] + p4, [Quoted(created)] + t4);
  }

  lemma PrintsScript(v: ViewScript<string>)
    requires CompleteScript(v) && PlainScript(v)
    ensures Prints(ScriptPieces(v), ScriptTokens(ParsedScript(v)))
  {
    PrintsBranches(v.rest);
    PrintsSelect(v.first);
    var (ps, ts) := (BranchesPieces(v.rest) + [END_TEXT], BranchesTokens(Map(ParsedBranch, v.rest)) + [Symbol(';')]);
    PrintsBoth(SelectPieces(v.first), SelectTokens(ParsedSelect(v.first)), ps, ts);
    PrintsHeader(v.created, v.schema, v.name, SelectPieces(v.first) + ps, SelectTokens(ParsedSelect(v.first)) + ts);
  }

  /** The text of a view script lexes and parses back to the script, exactly when the parentheses of
      every data type in it are balanced. */
  lemma ScriptTextRoundTrip(v: ViewScript<string>)
    requires CompleteScript(v) && PlainScript(v)
    ensures ParseText(Text(ScriptPieces(v))) == Some(ParsedScript(v)) <==> BalancedScript(ParsedScript(v))
  {
    PrintsScript(v);
    LexText(ScriptPieces(v));
    var parsed := ParsedScript(v);
    if BalancedScript(parsed) {
      ScriptRoundTrip(parsed);
    } else {
      ParsedScriptIsBalanced(ScriptTokens(parsed));
    }
  }

  // ----- the text of pieces put together -----

  lemma TextThen(p: Piece, ps: seq<Piece>)
    ensures Text([p] + ps) == Render(p) + Text(ps)
  {
    FirstPiece([p] + ps);
    assert ([p] + ps)[1..] == ps;
  }

  lemma TextOfOne(p: Piece)
    ensures Text([p]) == Render(p)
  {
    TextThen(p, []);
    assert [p] + [] == [p] && Text([]) == "" && Render(p) + "" == Render(p);
  }

  lemma HeaderText(created: string, schema: string, name: string, rest: seq<Piece>)
    ensures Text(HeaderPieces(created, schema, name, rest)) ==
            "CREATE SCHEMA IF NOT EXISTS " + QuoteIdent(created) + ";\nCREATE VIEW " + QuoteIdent(schema) + "."
            + QuoteIdent(name) + " AS " + Text(rest)
  {
    var p0 := [AS_TEXT] + rest;
    var p1 := [DOT_TEXT] + ([Name(name)] + p0);
    var p2 := [CREATE_VIEW_TEXT] + ([Name(schema)] + p1);
    TextThen(AS_TEXT, rest);
    TextThen(Name(name), p0);
    TextThen(DOT_TEXT, [Name(name)] + p0);
    TextThen(Name(schema), p1);
    TextThen(CREATE_VIEW_TEXT, [Name(schema)] + p1);
    TextThen(Name(created), p2);
    TextThen(CREATE_SCHEMA_TEXT, [Name(created)] + p2);
    JoinEight(CREATE_SCHEMA_TEXT.text, QuoteIdent(created), CREATE_VIEW_TEXT.text, QuoteIdent(schema), DOT_TEXT.text,
              QuoteIdent(name), AS_TEXT.text, Text(rest));
  }

  lemma JoinEight(a: string, b: string, c: string, d: string, e: string, f: string, g: string, h: string)
    ensures a + (b + (c + (d + (e + (f + (g + h)))))) == a + b + c + d + e + f + g + h
  {
  }
}
