/** Quoting, and a lexer for the SQL the gateway generates. Delimited identifiers and character
    string literals follow ISO/IEC 9075-2, sections 5.2 and 5.3: an embedded quote is doubled. */
module SqlText {
  import opened Wrappers
  import opened Strings
  import opened Lists

  // ----- quoting -----

  /** `str::replace` of a quote by two of it. */
  function Doubled(s: string, quote: char): string {
    if s == "" then ""
    else (if s[0] == quote then [quote, quote] else [s[0]]) + Doubled(s[1..], quote)
  }

  function QuoteIdent(identifier: string): string { "\"" + Doubled(identifier, '"') + "\"" }

  function EscapeLiteral(value: string): string { Doubled(value, '\'') }

  lemma {:induction false} DoubledMeaning(s: string, quote: char)
    ensures Doubled(s, quote) == Join(Split(s, quote), [quote, quote])
  {
    if s != "" {
      var rest := Split(s[1..], quote);
      DoubledMeaning(s[1..], quote);
      if s[0] == quote {
        assert ([""] + rest)[1..] == rest;
      } else {
        assert ([[s[0]] + rest[0]] + rest[1..])[1..] == rest[1..];
      }
    }
  }

  /** Every quote inside is written twice; identifiers also get quotes around them. */
  lemma {:induction false} QuotingMeaning(s: string)
    ensures QuoteIdent(s) == "\"" + Join(Split(s, '"'), "\"\"") + "\""
    ensures EscapeLiteral(s) == Join(Split(s, '\''), "''")
  {
    DoubledMeaning(s, '"');
    DoubledMeaning(s, '\'');
  }

  // ----- the lexer -----

  datatype Token = Word(text: string) | Quoted(text: string) | Literal(text: string) | Symbol(c: char)

  predicate IsWordChar(c: char) {
    'a' <= c <= 'z' || 'A' <= c <= 'Z' || '0' <= c <= '9' || c == '_'
  }

  predicate IsSpace(c: char) { c == ' ' || c == '\n' }

  predicate IsSymbol(c: char) { c in ".,;()[]=*" }

  predicate IsPlainChar(c: char) { IsWordChar(c) || IsSpace(c) || IsSymbol(c) }

  /** The content of a quoted token whose opening quote is already read, and what follows it. */
  function Scan(s: string, quote: char): (r: Option<(string, string)>)
    ensures r.Some? ==> |r.value.1| < |s|
  {
    if s == "" then None
    else if s[0] != quote then
      match Scan(s[1..], quote)
      case None => None
      case Some((content, rest)) => Some(([s[0]] + content, rest))
    else if |s| > 1 && s[1] == quote then
      match Scan(s[2..], quote)
      case None => None
      case Some((content, rest)) => Some(([quote] + content, rest))
    else Some(("", s[1..]))
  }

  function WordLength(s: string): (n: nat)
    ensures n <= |s|
    ensures forall i :: 0 <= i < n ==> IsWordChar(s[i])
    ensures n < |s| ==> !IsWordChar(s[n])
  {
    if s == "" || !IsWordChar(s[0]) then 0 else 1 + WordLength(s[1..])
  }

  /** What is read off the front of the text: one token, or no token for a space; and the rest. */
  function Step(s: string): (r: Option<(seq<Token>, string)>)
    requires s != ""
    ensures r.Some? ==> |r.value.1| < |s|
  {
    if IsSpace(s[0]) then Some(([], s[1..]))
    else if s[0] == '"' then
      match Scan(s[1..], '"')
      case None => None
      case Some((content, rest)) => Some(([Quoted(content)], rest))
    else if s[0] == '\'' then
      match Scan(s[1..], '\'')
      case None => None
      case Some((content, rest)) => Some(([Literal(content)], rest))
    else if IsWordChar(s[0]) then
      Some(([Word(s[..WordLength(s)])], s[WordLength(s)..]))
    else if IsSymbol(s[0]) then Some(([Symbol(s[0])], s[1..]))
    else None
  }

  function Append(a: Option<seq<Token>>, b: Option<seq<Token>>): Option<seq<Token>> {
    if a.Some? && b.Some? then Some(a.value + b.value) else None
  }

  function Lex(s: string): Option<seq<Token>>
    decreases |s|
  {
    if s == "" then Some([])
    else
      match Step(s)
      case None => None
      case Some((tokens, rest)) => Append(Some(tokens), Lex(rest))
  }

  lemma {:induction false} ScanOfDoubled(x: string, quote: char, rest: string)
    requires rest == "" || rest[0] != quote
    ensures Scan(Doubled(x, quote) + [quote] + rest, quote) == Some((x, rest))
  {
    var s := Doubled(x, quote) + [quote] + rest;
    if x == "" {
      assert s == [quote] + rest;
    } else {
      ScanOfDoubled(x[1..], quote, rest);
      var tail := Doubled(x[1..], quote) + [quote] + rest;
      if x[0] == quote {
        assert s == [quote, quote] + tail && s[2..] == tail;
      } else {
        assert s == [x[0]] + tail && s[1..] == tail;
      }
      assert [x[0]] + x[1..] == x;
    }
  }

  /** Whatever an identifier contains, quoting it makes one token that reads back as it. */
  lemma StepQuoted(x: string, rest: string)
    requires rest == "" || rest[0] != '"'
    ensures Step(QuoteIdent(x) + rest) == Some(([Quoted(x)], rest))
  {
    var s := QuoteIdent(x) + rest;
    assert s[1..] == Doubled(x, '"') + ['"'] + rest;
    ScanOfDoubled(x, '"', rest);
  }

  lemma StepLiteral(x: string, rest: string)
    requires rest == "" || rest[0] != '\''
    ensures Step("'" + EscapeLiteral(x) + "'" + rest) == Some(([Literal(x)], rest))
  {
    var s := "'" + EscapeLiteral(x) + "'" + rest;
    assert s[1..] == Doubled(x, '\'') + ['\''] + rest;
    ScanOfDoubled(x, '\'', rest);
  }

  predicate IsPlain(s: string) { forall i :: 0 <= i < |s| ==> IsPlainChar(s[i]) }

  /** No word runs from `a` into `b`. */
  predicate Apart(a: string, b: string) {
    a == "" || b == "" || !IsWordChar(a[|a| - 1]) || !IsWordChar(b[0])
  }

  lemma StepPlain(a: string, b: string)
    requires IsPlain(a) && Apart(a, b) && a != ""
    ensures Step(a).Some?
    ensures Step(a + b) == Some((Step(a).value.0, Step(a).value.1 + b))
    ensures IsPlain(Step(a).value.1) && Apart(Step(a).value.1, b)
  {
    var n := if IsWordChar(a[0]) then WordLength(a) else 1;
    SplitPlain(a, b, n);
    if IsWordChar(a[0]) { WordLengthOfConcat(a, b); }
  }

  lemma SplitPlain(a: string, b: string, n: nat)
    requires IsPlain(a) && Apart(a, b) && n <= |a|
    ensures IsPlain(a[n..]) && Apart(a[n..], b)
    ensures (a + b)[n..] == a[n..] + b && (a + b)[..n] == a[..n]
  {
  }

  /** Text without quotes lexes on its own, up to a boundary no word crosses. */
  lemma {:induction false} LexPlain(a: string, b: string)
    requires IsPlain(a) && Apart(a, b)
    ensures Lex(a).Some?
    ensures Lex(a + b) == Append(Lex(a), Lex(b))
    decreases |a|
  {
    if a == "" {
      assert a + b == b;
      AppendToNothing(Lex(b));
    } else {
      StepPlain(a, b);
      LexPlain(Step(a).value.1, b);
      AppendIsAssociative(Some(Step(a).value.0), Lex(Step(a).value.1), Lex(b));
    }
  }

  lemma AppendToNothing(a: Option<seq<Token>>)
    ensures Append(Some([]), a) == a
  {
    if a.Some? { assert [] + a.value == a.value; }
  }

  lemma AppendIsAssociative(a: Option<seq<Token>>, b: Option<seq<Token>>, c: Option<seq<Token>>)
    ensures Append(Append(a, b), c) == Append(a, Append(b, c))
  {
    if a.Some? && b.Some? && c.Some? {
      assert a.value + b.value + c.value == a.value + (b.value + c.value);
    }
  }

  lemma {:induction false} WordEndsAt(s: string, n: nat)
    requires n <= |s| && forall i :: 0 <= i < n ==> IsWordChar(s[i])
    requires n < |s| ==> !IsWordChar(s[n])
    ensures WordLength(s) == n
  {
  }

  lemma {:induction false} WordLengthOfConcat(a: string, b: string)
    requires a != "" && Apart(a, b)
    ensures WordLength(a + b) == WordLength(a)
  {
    WordEndsAt(a + b, WordLength(a));
  }

  lemma {:induction false} StepOfWord(w: string)
    requires w != "" && forall i :: 0 <= i < |w| ==> IsWordChar(w[i])
    ensures Step(w) == Some(([Word(w)], ""))
  {
    WordEndsAt(w, |w|);
    assert w[..|w|] == w && w[|w|..] == "";
  }

  lemma {:induction false} LexOneStep(s: string, tokens: seq<Token>)
    requires s != "" && Step(s) == Some((tokens, ""))
    ensures Lex(s) == Some(tokens)
  {
    assert Lex("") == Some([]) && tokens + [] == tokens;
  }

  lemma {:induction false} LexOneWord(w: string)
    requires w != "" && forall i :: 0 <= i < |w| ==> IsWordChar(w[i])
    ensures IsPlain(w) && Lex(w) == Some([Word(w)])
  {
    StepOfWord(w);
    LexOneStep(w, [Word(w)]);
  }

  lemma {:induction false} LexWordThen(w: string, rest: string)
    requires w != "" && forall i :: 0 <= i < |w| ==> IsWordChar(w[i])
    requires rest == "" || !IsWordChar(rest[0])
    ensures Lex(w + rest) == Append(Some([Word(w)]), Lex(rest))
  {
    LexOneWord(w);
    LexPlain(w, rest);
  }

  lemma {:induction false} LexSpaceThen(c: char, rest: string)
    requires IsSpace(c)
    ensures Lex([c] + rest) == Lex(rest)
  {
    assert Step([c] + rest) == Some(([], rest)) by { assert ([c] + rest)[1..] == rest; }
    AppendToNothing(Lex(rest));
  }

  lemma {:induction false} LexSymbolThen(c: char, rest: string)
    requires IsSymbol(c)
    ensures Lex([c] + rest) == Append(Some([Symbol(c)]), Lex(rest))
  {
  }

  predicate IsWord(w: string) { w != "" && forall i :: 0 <= i < |w| ==> IsWordChar(w[i]) }

  /** Words, each followed by a space. */
  function Spaced(words: seq<string>): string {
    if words == [] then "" else words[0] + " " + Spaced(words[1..])
  }

  function Words(words: seq<string>): seq<Token> {
    if words == [] then [] else [Word(words[0])] + Words(words[1..])
  }

  lemma {:induction false} LexSpaced(words: seq<string>)
    requires forall w :: w in words ==> IsWord(w)
    ensures Lex(Spaced(words)) == Some(Words(words))
  {
    if words != [] {
      LexSpaced(words[1..]);
      assert IsWord(words[0]);
      LexWordThen(words[0], " " + Spaced(words[1..]));
      LexSpaceThen(' ', Spaced(words[1..]));
      assert Spaced(words) == words[0] + (" " + Spaced(words[1..]));
    }
  }

  /** Unquoted text spelled out: words, symbols and single spaces or line breaks. */
  datatype Bit = W(text: string) | S(c: char) | Gap(c: char)

  function SpellOne(b: Bit): string {
    match b case W(text) => text case S(c) => [c] case Gap(c) => [c]
  }

  function Spell(bits: seq<Bit>): string {
    if bits == [] then "" else SpellOne(bits[0]) + Spell(bits[1..])
  }

  function TokenOne(b: Bit): seq<Token> {
    match b case W(text) => [Word(text)] case S(c) => [Symbol(c)] case Gap(_) => []
  }

  function BitTokens(bits: seq<Bit>): seq<Token> {
    if bits == [] then [] else TokenOne(bits[0]) + BitTokens(bits[1..])
  }

  predicate GoodBit(b: Bit) {
    match b case W(text) => IsWord(text) case S(c) => IsSymbol(c) case Gap(c) => IsSpace(c)
  }

  predicate WellSpelled(bits: seq<Bit>) {
    && (forall i :: 0 <= i < |bits| ==> GoodBit(bits[i]))
    && (forall i :: 0 <= i < |bits| - 1 ==> !(bits[i].W? && bits[i + 1].W?))
  }

  lemma {:induction false} SpellShape(bits: seq<Bit>)
    requires WellSpelled(bits)
    ensures IsPlain(Spell(bits))
    ensures bits != [] ==> Spell(bits) != "" && (!bits[0].W? ==> !IsWordChar(Spell(bits)[0]))
    ensures bits != [] && !bits[|bits| - 1].W? ==> !IsWordChar(Spell(bits)[|Spell(bits)| - 1])
  {
    if bits != [] {
      var rest := bits[1..];
      assert forall i :: 0 <= i < |rest| ==> rest[i] == bits[i + 1];
      SpellShape(rest);
      var (one, more) := (SpellOne(bits[0]), Spell(rest));
      assert GoodBit(bits[0]) && one != "" && IsPlain(one);
      assert Spell(bits) == one + more;
      assert (one + more)[|one + more| - 1] == if more == "" then one[|one| - 1] else more[|more| - 1];
      assert rest == [] ==> more == "";
    }
  }

  lemma {:induction false} LexBits(bits: seq<Bit>)
    requires WellSpelled(bits)
    ensures Lex(Spell(bits)) == Some(BitTokens(bits))
  {
    if bits != [] {
      var rest := bits[1..];
      assert forall i :: 0 <= i < |rest| ==> rest[i] == bits[i + 1];
      LexBits(rest);
      SpellShape(rest);
      LexBit(bits[0], Spell(rest));
    }
  }

  lemma {:induction false} LexBit(b: Bit, rest: string)
    requires GoodBit(b) && (b.W? ==> rest == "" || !IsWordChar(rest[0]))
    ensures Lex(SpellOne(b) + rest) == Append(Some(TokenOne(b)), Lex(rest))
  {
    match b
    case W(text) => LexWordThen(text, rest);
    case S(c) => LexSymbolThen(c, rest);
    case Gap(c) =>
      LexSpaceThen(c, rest);
      AppendToNothing(Lex(rest));
  }

  lemma {:induction false} SpellIsFlat(bits: seq<Bit>)
    ensures Spell(bits) == Flat(Map(SpellOne, bits))
    ensures BitTokens(bits) == Flat(Map(TokenOne, bits))
  {
    if bits != [] {
      SpellIsFlat(bits[1..]);
      assert Map(SpellOne, bits)[1..] == Map(SpellOne, bits[1..]);
      assert Map(TokenOne, bits)[1..] == Map(TokenOne, bits[1..]);
    }
  }

  lemma {:induction false} SpellOfConcat(a: seq<Bit>, b: seq<Bit>)
    ensures Spell(a + b) == Spell(a) + Spell(b)
    ensures BitTokens(a + b) == BitTokens(a) + BitTokens(b)
  {
    SpellIsFlat(a);
    SpellIsFlat(b);
    SpellIsFlat(a + b);
    assert Map(SpellOne, a + b) == Map(SpellOne, a) + Map(SpellOne, b);
    assert Map(TokenOne, a + b) == Map(TokenOne, a) + Map(TokenOne, b);
    FlatOfConcat(Map(SpellOne, a), Map(SpellOne, b));
    FlatOfConcat(Map(TokenOne, a), Map(TokenOne, b));
  }

  // ----- pieces -----

  /** Generated text is made of plain text, quoted identifiers and string literals. */
  datatype Piece = Plain(text: string) | Name(x: string) | Value(x: string)

  function Render(p: Piece): string {
    match p
    case Plain(text) => text
    case Name(x) => QuoteIdent(x)
    case Value(x) => "'" + EscapeLiteral(x) + "'"
  }

  function Text(ps: seq<Piece>): string { Flat(Map(Render, ps)) }

  function TokensOf(p: Piece): seq<Token> {
    match p
    case Plain(text) => (match Lex(text) case Some(ts) => ts case None => [])
    case Name(x) => [Quoted(x)]
    case Value(x) => [Literal(x)]
  }

  function Tokens(ps: seq<Piece>): seq<Token> { Flat(Map(TokensOf, ps)) }

  lemma FirstPiece(ps: seq<Piece>)
    requires ps != []
    ensures Text(ps) == Render(ps[0]) + Text(ps[1..])
    ensures Tokens(ps) == TokensOf(ps[0]) + Tokens(ps[1..])
  {
    assert Map(Render, ps)[1..] == Map(Render, ps[1..]);
    assert Map(TokensOf, ps)[1..] == Map(TokensOf, ps[1..]);
  }

  lemma PiecesOfConcat(ps: seq<Piece>, qs: seq<Piece>)
    ensures Text(ps + qs) == Text(ps) + Text(qs)
    ensures Tokens(ps + qs) == Tokens(ps) + Tokens(qs)
  {
    assert Map(Render, ps + qs) == Map(Render, ps) + Map(Render, qs);
    assert Map(TokensOf, ps + qs) == Map(TokensOf, ps) + Map(TokensOf, qs);
    FlatOfConcat(Map(Render, ps), Map(Render, qs));
    FlatOfConcat(Map(TokensOf, ps), Map(TokensOf, qs));
  }

  /** A piece that cannot run into what follows it: plain text ends between words. */
  predicate Ended(p: Piece) {
    p.Plain? ==> p.text != "" && IsPlain(p.text) && !IsWordChar(p.text[|p.text| - 1])
  }

  /** Two pieces may stand next to each other: they do not run into one quoted token. */
  predicate Adjacent(p: Piece, q: Piece) {
    p.Plain? || q.Plain? || p.Name? != q.Name?
  }

  predicate WellSpaced(ps: seq<Piece>) {
    && (forall i :: 0 <= i < |ps| ==> Ended(ps[i]))
    && (forall i :: 0 <= i < |ps| - 1 ==> Adjacent(ps[i], ps[i + 1]))
  }

  lemma FirstChar(ps: seq<Piece>)
    requires WellSpaced(ps) && ps != []
    ensures Text(ps) != ""
    ensures match ps[0]
            case Plain(text) => Text(ps)[0] == text[0]
            case Name(_) => Text(ps)[0] == '"'
            case Value(_) => Text(ps)[0] == '\''
  {
  }

  /** Lexing the text of well-spaced pieces gives the tokens of the pieces, whatever is quoted in them. */
  lemma {:induction false} LexText(ps: seq<Piece>)
    requires WellSpaced(ps)
    ensures Lex(Text(ps)) == Some(Tokens(ps))
  {
    if ps != [] {
      var rest := ps[1..];
      assert forall i :: 0 <= i < |rest| ==> rest[i] == ps[i + 1];
      LexText(rest);
      FirstPiece(ps);
      if rest != [] {
        FirstChar(rest);
        assert Adjacent(ps[0], ps[1]);
      }
      LexPiece(ps[0], Text(rest));
    }
  }

  /** One piece in front of anything it does not run into. */
  lemma {:induction false} LexPiece(p: Piece, rest: string)
    requires Ended(p)
    requires rest == "" || p.Plain? || (p.Name? && rest[0] != '"') || (p.Value? && rest[0] != '\'')
    ensures Lex(Render(p) + rest) == Append(Some(TokensOf(p)), Lex(rest))
  {
    match p
    case Plain(text) => LexPlain(text, rest);
    case Name(x) => StepQuoted(x, rest);
    case Value(x) => StepLiteral(x, rest);
  }

  lemma WellSpacedConcat(ps: seq<Piece>, qs: seq<Piece>)
    requires WellSpaced(ps) && WellSpaced(qs)
    requires ps != [] && qs != [] ==> Adjacent(ps[|ps| - 1], qs[0])
    ensures WellSpaced(ps + qs)
  {
  }
}
