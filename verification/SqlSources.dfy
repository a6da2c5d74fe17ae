/** The statements that register a backend (`register_backend`), for any path strings. */
module SqlSources {
  import opened Wrappers
  import opened Lists
  import opened Strings
  import opened Config
  import opened SqlText
  import opened SqlGrammar
  import opened SqlPrinting

  datatype SourceStatement =
    | Attach(path: string, name: string, kind: string)
    | ParquetView(created: string, schema: string, relation: string, files: seq<string>)

  // ----- printing -----

  const ATTACH_TEXT := Plain("ATTACH ")
  const OPEN_LIST := Plain("[")
  const CLOSE_LIST := Plain("]")
  const READ_PARQUET_TEXT := Plain("SELECT * FROM read_parquet(")
  const BY_NAME_OPTION := Plain(", union_by_name = true);")

  function OptionsText(kind: string): Piece { Plain(" (TYPE " + kind + ", READ_ONLY)") }

  function ValuesPieces(values: seq<string>): seq<Piece> {
    if values == [] then [CLOSE_LIST]
    else if |values| == 1 then [Value(values[0])] + [CLOSE_LIST]
    else [Value(values[0])] + ([COMMA_TEXT] + ValuesPieces(values[1..]))
  }

  function AttachPieces(path: string, name: string, kind: string): seq<Piece> {
    [ATTACH_TEXT] + ([Value(path)] + ([AS_TEXT] + ([Name(name)] + [OptionsText(kind)])))
  }

  function ParquetPieces(name: string, relation: string, files: seq<string>): seq<Piece> {
    HeaderPieces(name, name, relation,
                 [READ_PARQUET_TEXT] + ([OPEN_LIST] + (ValuesPieces(files) + [BY_NAME_OPTION])))
  }

  function KindWord(kind: BackendType): string
    requires kind != Parquet
  {
    if kind == Sqlite then "SQLITE" else "DUCKDB"
  }

  /** `sql_path_list`. */
  function SqlPathList(files: seq<string>): string {
    "[" + Join(Map(file => "'" + EscapeLiteral(file) + "'", files), ", ") + "]"
  }

  /** The text `register_backend` executes. */
  function RegisterSql(backend: Backend, files: seq<string>): string {
    if backend.kind != Parquet then
      "ATTACH '" + EscapeLiteral(backend.path) + "' AS " + QuoteIdent(backend.name)
      + " (TYPE " + KindWord(backend.kind) + ", READ_ONLY)"
    else
      "CREATE SCHEMA IF NOT EXISTS " + QuoteIdent(backend.name) + ";\nCREATE VIEW " + QuoteIdent(backend.name)
      + "." + QuoteIdent(backend.Relation()) + " AS " + "SELECT * FROM read_parquet(" + SqlPathList(files)
      + ", union_by_name = true);"
  }

  // ----- parsing -----

  const ATTACH := Words(["ATTACH"])
  const READ_PARQUET := SELECT + ([Symbol('*')] + (FROM + [Word("read_parquet"), Symbol('(')]))
  const OPTION_END := [Symbol(','), Word("union_by_name"), Symbol('='), Word("true"), Symbol(')'), Symbol(';')]

  function ParseValues(ts: seq<Token>): Option<(seq<string>, seq<Token>)>
    decreases |ts|
  {
    if ts == [] then None
    else if ts[0] == Symbol(']') then Some(([], ts[1..]))
    else if !ts[0].Literal? || |ts| == 1 then None
    else if ts[1] == Symbol(']') then Some(([ts[0].text], ts[2..]))
    else if ts[1] == Symbol(',') then
      var (values, rest) :- ParseValues(ts[2..]);
      Some(([ts[0].text] + values, rest))
    else None
  }

  function ParseAttach(ts: seq<Token>): Option<SourceStatement> {
    var afterAttach :- Expect(ts, ATTACH);
    if afterAttach == [] || !afterAttach[0].Literal? then None
    else
      var afterAs :- Expect(afterAttach[1..], AS);
      var (name, options) :- ExpectName(afterAs);
      if |options| == 6 && options[2].Word? && options == OptionsTokens(options[2].text)
      then Some(Attach(afterAttach[0].text, name, options[2].text))
      else None
  }

  function OptionsTokens(kind: string): seq<Token> {
    [Symbol('('), Word("TYPE"), Word(kind), Symbol(','), Word("READ_ONLY"), Symbol(')')]
  }

  function ParseParquet(ts: seq<Token>): Option<SourceStatement> {
    var (created, schema, relation, body) :- ParseHeader(ts);
    var afterOpen :- Expect(body, READ_PARQUET + [Symbol('[')]);
    var (files, rest) :- ParseValues(afterOpen);
    if rest == OPTION_END then Some(ParquetView(created, schema, relation, files)) else None
  }

  function ParseSource(text: string): Option<SourceStatement> {
    var ts :- Lex(text);
    if ATTACH <= ts then ParseAttach(ts) else ParseParquet(ts)
  }

  // ----- the fixed text -----

  const OPTIONS_HEAD := [Gap(' '), S('('), W("TYPE"), Gap(' ')]
  const OPTIONS_TAIL := [S(','), Gap(' '), W("READ_ONLY"), S(')')]
  const SELECT_STAR_BITS := [W("SELECT"), Gap(' '), S('*'), Gap(' ')]
  const FROM_FILES_BITS := [W("FROM"), Gap(' '), W("read_parquet"), S('(')]
  const READ_PARQUET_BITS := SELECT_STAR_BITS + FROM_FILES_BITS
  const OPTION_NAME_BITS := [S(','), Gap(' '), W("union_by_name"), Gap(' ')]
  const OPTION_VALUE_BITS := [S('='), Gap(' '), W("true"), S(')'), S(';')]
  const OPTION_END_BITS := OPTION_NAME_BITS + OPTION_VALUE_BITS

  /** A piece whose text is spelled by bits that end in a symbol or a space. */
  lemma {:induction false} LexSpelled(p: Piece, bits: seq<Bit>, ts: seq<Token>)
    requires p == Plain(Spell(bits)) && BitTokens(bits) == ts
    requires WellSpelled(bits) && bits != [] && !bits[|bits| - 1].W?
    ensures Ended(p) && TokensOf(p) == ts
  {
    LexBits(bits);
    SpellShape(bits);
  }

  function OptionsBits(kind: string): seq<Bit> { OPTIONS_HEAD + [W(kind)] + OPTIONS_TAIL }

  lemma OptionsSpelling(kind: string)
    ensures OptionsText(kind) == Plain(Spell(OptionsBits(kind)))
  {
    SpellOfConcat(OPTIONS_HEAD, [W(kind)]);
    SpellOfConcat(OPTIONS_HEAD + [W(kind)], OPTIONS_TAIL);
    OptionsEnds();
    assert Spell([W(kind)]) == kind;
  }

  lemma OptionsEnds()
    ensures Spell(OPTIONS_HEAD) == " (TYPE " && Spell(OPTIONS_TAIL) == ", READ_ONLY)"
  {
  }

  lemma OptionsBitTokens(kind: string)
    ensures BitTokens(OptionsBits(kind)) == OptionsTokens(kind)
  {
    SpellOfConcat(OPTIONS_HEAD, [W(kind)]);
    SpellOfConcat(OPTIONS_HEAD + [W(kind)], OPTIONS_TAIL);
    OptionsEndTokens();
    OneWordTokens(kind);
  }

  lemma OneWordTokens(w: string)
    ensures BitTokens([W(w)]) == [Word(w)]
  {
  }

  lemma OptionsEndTokens()
    ensures BitTokens(OPTIONS_HEAD) == [Symbol('('), Word("TYPE")]
    ensures BitTokens(OPTIONS_TAIL) == [Symbol(','), Word("READ_ONLY"), Symbol(')')]
  {
  }

  lemma GoodOptionsBits(kind: string)
    requires IsWord(kind)
    ensures WellSpelled(OptionsBits(kind)) && |OptionsBits(kind)| == 9 && OptionsBits(kind)[8] == S(')')
  {
  }

  lemma LexOptions(kind: string)
    requires IsWord(kind)
    ensures Ended(OptionsText(kind)) && TokensOf(OptionsText(kind)) == OptionsTokens(kind)
  {
    OptionsSpelling(kind);
    OptionsBitTokens(kind);
    GoodOptionsBits(kind);
    LexSpelled(OptionsText(kind), OptionsBits(kind), OptionsTokens(kind));
  }

  lemma SelectStarSpelling()
    ensures Spell(SELECT_STAR_BITS) == "SELECT * "
    ensures BitTokens(SELECT_STAR_BITS) == [Word("SELECT"), Symbol('*')]
  {
  }

  lemma FromFilesSpelling()
    ensures Spell(FROM_FILES_BITS) == "FROM read_parquet("
    ensures BitTokens(FROM_FILES_BITS) == [Word("FROM"), Word("read_parquet"), Symbol('(')]
  {
  }

  lemma JoinedHalves(left: string, right: string)
    requires left == "SELECT * " && right == "FROM read_parquet("
    ensures left + right == "SELECT * FROM read_parquet("
  {
  }

  lemma ReadParquetHalves()
    ensures Spell(SELECT_STAR_BITS) + Spell(FROM_FILES_BITS) == "SELECT * FROM read_parquet("
  {
    SelectStarSpelling();
    FromFilesSpelling();
    JoinedHalves(Spell(SELECT_STAR_BITS), Spell(FROM_FILES_BITS));
  }

  lemma ReadParquetSpelling()
    ensures READ_PARQUET_TEXT == Plain(Spell(READ_PARQUET_BITS))
  {
    SpellOfConcat(SELECT_STAR_BITS, FROM_FILES_BITS);
    ReadParquetHalves();
  }

  lemma ReadParquetTokens()
    ensures BitTokens(READ_PARQUET_BITS) == READ_PARQUET
  {
    SpellOfConcat(SELECT_STAR_BITS, FROM_FILES_BITS);
    SelectStarSpelling();
    FromFilesSpelling();
    assert SELECT == [Word("SELECT")] && FROM == [Word("FROM")];
  }

  lemma GoodReadParquetBits()
    ensures WellSpelled(READ_PARQUET_BITS) && READ_PARQUET_BITS[|READ_PARQUET_BITS| - 1] == S('(')
  {
    assert IsWord("SELECT") && IsWord("FROM") && IsWord("read_parquet");
  }

  lemma LexReadParquet()
    ensures Ended(READ_PARQUET_TEXT) && TokensOf(READ_PARQUET_TEXT) == READ_PARQUET
  {
    ReadParquetSpelling();
    ReadParquetTokens();
    GoodReadParquetBits();
    LexSpelled(READ_PARQUET_TEXT, READ_PARQUET_BITS, READ_PARQUET);
  }

  lemma OptionEndSpelling()
    ensures BY_NAME_OPTION == Plain(Spell(OPTION_END_BITS))
  {
    SpellOfConcat(OPTION_NAME_BITS, OPTION_VALUE_BITS);
    OptionEndHalves();
  }

  lemma OptionNameSpelling()
    ensures Spell(OPTION_NAME_BITS) == ", union_by_name "
  {
  }

  lemma OptionValueSpelling()
    ensures Spell(OPTION_VALUE_BITS) == "= true);"
  {
  }

  lemma OptionEndHalves()
    ensures Spell(OPTION_NAME_BITS) + Spell(OPTION_VALUE_BITS) == ", union_by_name = true);"
  {
    OptionNameSpelling();
    OptionValueSpelling();
    assert ", union_by_name " + "= true);" == ", union_by_name = true);";
  }

  lemma OptionEndTokens()
    ensures BitTokens(OPTION_END_BITS) == OPTION_END
  {
    SpellOfConcat(OPTION_NAME_BITS, OPTION_VALUE_BITS);
    assert BitTokens(OPTION_NAME_BITS) == [Symbol(','), Word("union_by_name")];
    assert BitTokens(OPTION_VALUE_BITS) == [Symbol('='), Word("true"), Symbol(')'), Symbol(';')];
  }

  lemma GoodOptionEndBits()
    ensures WellSpelled(OPTION_END_BITS) && OPTION_END_BITS[|OPTION_END_BITS| - 1] == S(';')
  {
  }

  lemma LexOptionEnd()
    ensures Ended(BY_NAME_OPTION) && TokensOf(BY_NAME_OPTION) == OPTION_END
  {
    OptionEndSpelling();
    OptionEndTokens();
    GoodOptionEndBits();
    LexSpelled(BY_NAME_OPTION, OPTION_END_BITS, OPTION_END);
  }

  lemma LexAttach()
    ensures Ended(ATTACH_TEXT) && TokensOf(ATTACH_TEXT) == ATTACH
  {
    assert "ATTACH " == "" + Spaced(["ATTACH"]);
    LexKeywords(ATTACH_TEXT, "", ["ATTACH"]);
  }

  // ----- round trips -----

  function ValuesTokens(values: seq<string>): seq<Token> {
    if values == [] then [Symbol(']')]
    else if |values| == 1 then [Literal(values[0])] + [Symbol(']')]
    else [Literal(values[0])] + (COMMA + ValuesTokens(values[1..]))
  }

  lemma {:induction false} PrintsValues(values: seq<string>, end: seq<Piece>, endTokens: seq<Token>)
    requires Prints(end, endTokens)
    ensures Prints(ValuesPieces(values) + end, ValuesTokens(values) + endTokens)
  {
    if |values| <= 1 {
      PrintsLastValue(values, end, endTokens);
    } else {
      PrintsValues(values[1..], end, endTokens);
      PrintsAnotherValue(values[0], ValuesPieces(values[1..]) + end, ValuesTokens(values[1..]) + endTokens);
      RegroupList([Value(values[0])], [COMMA_TEXT], ValuesPieces(values[1..]), end);
      Regroup([Literal(values[0])], COMMA, ValuesTokens(values[1..]), endTokens);
    }
  }

  lemma RegroupList(a: seq<Piece>, b: seq<Piece>, c: seq<Piece>, d: seq<Piece>)
    ensures a + (b + c) + d == a + (b + (c + d))
  {
  }

  lemma {:induction false} PrintsLastValue(values: seq<string>, end: seq<Piece>, endTokens: seq<Token>)
    requires Prints(end, endTokens) && |values| <= 1
    ensures Prints(ValuesPieces(values) + end, ValuesTokens(values) + endTokens)
  {
    var (close, ts) := ([CLOSE_LIST] + end, [Symbol(']')] + endTokens);
    LexSymbol(CLOSE_LIST, ']');
    PrintsThen(CLOSE_LIST, [Symbol(']')], end, endTokens);
    if |values| == 1 {
      PrintsThen(Value(values[0]), [Literal(values[0])], close, ts);
      SplitList([Value(values[0])], [CLOSE_LIST], end);
      Associative([Literal(values[0])], [Symbol(']')], endTokens);
    }
  }

  lemma SplitList(a: seq<Piece>, b: seq<Piece>, c: seq<Piece>)
    ensures a + b + c == a + (b + c)
  {
  }

  lemma PrintsAnotherValue(value: string, ps: seq<Piece>, ts: seq<Token>)
    requires Prints(ps, ts)
    ensures Prints([Value(value)] + ([COMMA_TEXT] + ps), [Literal(value)] + (COMMA + ts))
  {
    LexComma();
    PrintsThen(COMMA_TEXT, COMMA, ps, ts);
    PrintsThen(Value(value), [Literal(value)], [COMMA_TEXT] + ps, COMMA + ts);
  }

  lemma {:induction false} ValuesRoundTrip(values: seq<string>, rest: seq<Token>)
    ensures ParseValues(ValuesTokens(values) + rest) == Some((values, rest))
  {
    var ts := ValuesTokens(values) + rest;
    if values == [] {
      assert ts[0] == Symbol(']') && ts[1..] == rest;
    } else if |values| == 1 {
      assert ts[0] == Literal(values[0]) && ts[1] == Symbol(']') && ts[2..] == rest;
      assert values == [values[0]];
    } else {
      ValuesRoundTrip(values[1..], rest);
      assert ts[0] == Literal(values[0]) && ts[1] == Symbol(',');
      assert ts[2..] == ValuesTokens(values[1..]) + rest;
      assert values == [values[0]] + values[1..];
    }
  }

  lemma AttachRoundTrip(path: string, name: string, kind: string)
    requires IsWord(kind)
    ensures ParseSource(Text(AttachPieces(path, name, kind))) == Some(Attach(path, name, kind))
  {
    LexAttach();
    LexAs();
    LexOptions(kind);
    var (options, ts) := ([OptionsText(kind)], OptionsTokens(kind));
    PrintsOne(OptionsText(kind));
    PrintsThen(Name(name), [Quoted(name)], options, ts);
    PrintsThen(AS_TEXT, AS, [Name(name)] + options, [Quoted(name)] + ts);
    PrintsThen(Value(path), [Literal(path)], [AS_TEXT] + ([Name(name)] + options), AS + ([Quoted(name)] + ts));
    PrintsThen(ATTACH_TEXT, ATTACH, [Value(path)] + ([AS_TEXT] + ([Name(name)] + options)),
               [Literal(path)] + (AS + ([Quoted(name)] + ts)));
    LexText(AttachPieces(path, name, kind));
    AttachTokensRoundTrip(path, name, kind);
  }

  lemma AttachTokensRoundTrip(path: string, name: string, kind: string)
    ensures ATTACH <= ATTACH + ([Literal(path)] + (AS + ([Quoted(name)] + OptionsTokens(kind))))
    ensures ParseAttach(ATTACH + ([Literal(path)] + (AS + ([Quoted(name)] + OptionsTokens(kind))))) ==
            Some(Attach(path, name, kind))
  {
  }

  function ParquetBody(files: seq<string>): seq<Token> {
    READ_PARQUET + ([Symbol('[')] + (ValuesTokens(files) + OPTION_END))
  }

  lemma PrintsParquet(name: string, relation: string, files: seq<string>)
    ensures Prints(ParquetPieces(name, relation, files), HeaderTokens(name, name, relation, ParquetBody(files)))
  {
    LexReadParquet();
    LexOptionEnd();
    LexSymbol(OPEN_LIST, '[');
    PrintsOne(BY_NAME_OPTION);
    PrintsValues(files, [BY_NAME_OPTION], OPTION_END);
    var (list, ts) := (ValuesPieces(files) + [BY_NAME_OPTION], ValuesTokens(files) + OPTION_END);
    PrintsThen(OPEN_LIST, [Symbol('[')], list, ts);
    PrintsThen(READ_PARQUET_TEXT, READ_PARQUET, [OPEN_LIST] + list, [Symbol('[')] + ts);
    PrintsHeader(name, name, relation, [READ_PARQUET_TEXT] + ([OPEN_LIST] + list), ParquetBody(files));
  }

  lemma ParquetTokensRoundTrip(name: string, relation: string, files: seq<string>)
    ensures ParseParquet(HeaderTokens(name, name, relation, ParquetBody(files))) ==
            Some(ParquetView(name, name, relation, files))
  {
    var ts := ValuesTokens(files) + OPTION_END;
    HeaderRoundTrip(name, name, relation, ParquetBody(files));
    Associative(READ_PARQUET, [Symbol('[')], ts);
    ExpectPrefix(READ_PARQUET + [Symbol('[')], ts);
    ValuesRoundTrip(files, OPTION_END);
  }

  lemma ParquetRoundTrip(name: string, relation: string, files: seq<string>)
    ensures ParseSource(Text(ParquetPieces(name, relation, files))) == Some(ParquetView(name, name, relation, files))
  {
    PrintsParquet(name, relation, files);
    LexText(ParquetPieces(name, relation, files));
    NotAttach(name, name, relation, ParquetBody(files));
    ParquetTokensRoundTrip(name, relation, files);
  }

  lemma NotAttach(created: string, schema: string, name: string, body: seq<Token>)
    ensures !(ATTACH <= HeaderTokens(created, schema, name, body))
  {
    var ts := HeaderTokens(created, schema, name, body);
    assert CREATE_SCHEMA[0] == Word("CREATE") && ATTACH[0] == Word("ATTACH");
    assert ts[0] == CREATE_SCHEMA[0];
    assert "CREATE"[0] != "ATTACH"[0];
    PrefixStarts(ATTACH, ts);
  }

  // ----- register_backend's text is the text of these pieces -----

  lemma {:induction false} ValuesText(files: seq<string>)
    ensures Text(ValuesPieces(files)) == Join(Map(file => "'" + EscapeLiteral(file) + "'", files), ", ") + "]"
  {
    var quoted := Map(file => "'" + EscapeLiteral(file) + "'", files);
    if |files| > 1 {
      ValuesText(files[1..]);
      assert quoted[1..] == Map(file => "'" + EscapeLiteral(file) + "'", files[1..]);
      TextThen(COMMA_TEXT, ValuesPieces(files[1..]));
      TextThen(Value(files[0]), [COMMA_TEXT] + ValuesPieces(files[1..]));
    } else {
      TextThen(CLOSE_LIST, []);
      assert [CLOSE_LIST] + [] == [CLOSE_LIST];
      if files != [] { TextThen(Value(files[0]), [CLOSE_LIST]); }
    }
  }

  lemma AttachText(path: string, name: string, kind: string)
    ensures Text(AttachPieces(path, name, kind)) ==
            "ATTACH '" + EscapeLiteral(path) + "' AS " + QuoteIdent(name) + " (TYPE " + kind + ", READ_ONLY)"
  {
    var options := [OptionsText(kind)];
    TextOfOne(OptionsText(kind));
    TextThen(Name(name), options);
    TextThen(AS_TEXT, [Name(name)] + options);
    TextThen(Value(path), [AS_TEXT] + ([Name(name)] + options));
    TextThen(ATTACH_TEXT, [Value(path)] + ([AS_TEXT] + ([Name(name)] + options)));
    JoinAttach("ATTACH ", "'", EscapeLiteral(path), " AS ", QuoteIdent(name), " (TYPE " + kind + ", READ_ONLY)");
    assert "ATTACH '" == "ATTACH " + "'" && "' AS " == "'" + " AS ";
  }

  lemma JoinAttach(a: string, q: string, path: string, as_: string, name: string, options: string)
    ensures a + ((q + path + q) + (as_ + (name + options))) == (a + q) + path + (q + as_) + name + options
  {
  }

  lemma {:induction false} ParquetText(name: string, relation: string, files: seq<string>)
    ensures Text(ParquetPieces(name, relation, files)) ==
            "CREATE SCHEMA IF NOT EXISTS " + QuoteIdent(name) + ";\nCREATE VIEW " + QuoteIdent(name) + "."
            + QuoteIdent(relation) + " AS " + "SELECT * FROM read_parquet(" + SqlPathList(files)
            + ", union_by_name = true);"
  {
    var list := ValuesPieces(files) + [BY_NAME_OPTION];
    ListText(files);
    TextThen(READ_PARQUET_TEXT, [OPEN_LIST] + list);
    HeaderText(name, name, relation, [READ_PARQUET_TEXT] + ([OPEN_LIST] + list));
    JoinParquet("CREATE SCHEMA IF NOT EXISTS " + QuoteIdent(name) + ";\nCREATE VIEW " + QuoteIdent(name) + "."
                + QuoteIdent(relation), AS_TEXT.text, READ_PARQUET_TEXT.text, SqlPathList(files), BY_NAME_OPTION.text);
  }

  lemma {:induction false} ListText(files: seq<string>)
    ensures Text([OPEN_LIST] + (ValuesPieces(files) + [BY_NAME_OPTION])) == SqlPathList(files) + BY_NAME_OPTION.text
  {
    TextOfOne(BY_NAME_OPTION);
    PiecesOfConcat(ValuesPieces(files), [BY_NAME_OPTION]);
    ValuesText(files);
    TextThen(OPEN_LIST, ValuesPieces(files) + [BY_NAME_OPTION]);
  }

  lemma JoinParquet(a: string, b: string, c: string, d: string, e: string)
    ensures a + b + (c + (d + e)) == a + b + c + d + e
  {
  }

  /** Registering text reads back as the backend's path (or files), kind, name and relation, whatever
      quotes, commas or brackets the paths contain. */
  lemma RegisterRoundTrip(backend: Backend, files: seq<string>)
    ensures ParseSource(RegisterSql(backend, files)) ==
            match backend.kind
            case Sqlite => Some(Attach(backend.path, backend.name, "SQLITE"))
            case Duckdb => Some(Attach(backend.path, backend.name, "DUCKDB"))
            case Parquet => Some(ParquetView(backend.name, backend.name, backend.Relation(), files))
  {
    if backend.kind != Parquet {
      AttachRoundTrip(backend.path, backend.name, KindWord(backend.kind));
      AttachText(backend.path, backend.name, KindWord(backend.kind));
    } else {
      ParquetRoundTrip(backend.name, backend.Relation(), files);
      ParquetText(backend.name, backend.Relation(), files);
    }
  }

  lemma EndOfThree(head: string, a: string, b: string, c: string)
    ensures EndsWith(head + a + b + c, a + b + c)
  {
    assert head + a + b + c == head + (a + b + c);
  }

  lemma OptionsSpelled(kind: BackendType)
    requires kind != Parquet
    ensures " (TYPE " + KindWord(kind) + ", READ_ONLY)" ==
            if kind == Sqlite then " (TYPE SQLITE, READ_ONLY)" else " (TYPE DUCKDB, READ_ONLY)"
  {
  }

  lemma RegroupEnd(head: string, open: string, list: string, close: string, end: string)
    ensures EndsWith(head + (open + list + close) + end, close + end)
  {
    assert head + (open + list + close) + end == (head + (open + list)) + (close + end);
  }

  lemma ByNameEnd(close: string, end: string)
    requires close == "]" && end == ", union_by_name = true);"
    ensures close + end == "], union_by_name = true);"
  {
  }

  lemma ListEnd(head: string, list: string, close: string, end: string)
    requires close == "]" && end == ", union_by_name = true);"
    ensures EndsWith(head + ("[" + list + close) + end, "], union_by_name = true);")
  {
    RegroupEnd(head, "[", list, close, end);
    ByNameEnd(close, end);
  }

  /** A database is attached for reading only; the columns of Parquet files are united by name. */
  lemma RegisterOptions(backend: Backend, files: seq<string>)
    ensures match backend.kind
            case Sqlite => EndsWith(RegisterSql(backend, files), " (TYPE SQLITE, READ_ONLY)")
            case Duckdb => EndsWith(RegisterSql(backend, files), " (TYPE DUCKDB, READ_ONLY)")
            case Parquet => EndsWith(RegisterSql(backend, files), "], union_by_name = true);")
  {
    if backend.kind != Parquet {
      OptionsSpelled(backend.kind);
      EndOfThree("ATTACH '" + EscapeLiteral(backend.path) + "' AS " + QuoteIdent(backend.name), " (TYPE ",
                 KindWord(backend.kind), ", READ_ONLY)");
    } else {
      ListEnd("CREATE SCHEMA IF NOT EXISTS " + QuoteIdent(backend.name) + ";\nCREATE VIEW " + QuoteIdent(backend.name)
              + "." + QuoteIdent(backend.Relation()) + " AS " + "SELECT * FROM read_parquet(",
              Join(Map(file => "'" + EscapeLiteral(file) + "'", files), ", "), "]", ", union_by_name = true);");
    }
  }
}
