/** `format_query_error`: strips the placeholder suffixes DuckDB's C interface appends. */
module ErrorText {
  import opened Wrappers
  import opened Strings

  const UNKNOWN := ": Unknown error code"
  const CODE := ": Error code "

  predicate IsDigits(s: string) {
    s != "" && forall c :: c in s ==> '0' <= c <= '9'
  }

  /** An error code: digits with an optional minus sign. */
  predicate IsCode(s: string) {
    IsDigits(if s != "" && s[0] == '-' then s[1..] else s)
  }

  function Placeholder(code: string): string { CODE + code + UNKNOWN }

  /** One placeholder follows the text `clean`. */
  ghost predicate Placeheld(s: string, clean: string) {
    exists code :: IsCode(code) && s == clean + Placeholder(code)
  }

  /** `s` is `clean` followed by any number of placeholders. */
  ghost predicate CleanedFrom(s: string, clean: string)
    decreases |s|
  {
    s == clean || exists shorter :: |shorter| < |s| && Placeheld(s, shorter) && CleanedFrom(shorter, clean)
  }

  ghost predicate Clean(s: string) {
    forall shorter :: !Placeheld(s, shorter)
  }

  predicate OccursAt(s: string, pattern: string, k: int) {
    0 <= k <= |s| - |pattern| && s[k..k + |pattern|] == pattern
  }

  /** `rsplit_once`: the text before and after the last occurrence of `pattern`. */
  method RSplitOnce(s: string, pattern: string) returns (r: Option<(string, string)>)
    requires pattern != ""
    ensures r.Some? ==> s == r.value.0 + pattern + r.value.1
    ensures r.Some? ==> forall k :: |r.value.0| < k ==> !OccursAt(s, pattern, k)
    ensures r.None? ==> forall k :: !OccursAt(s, pattern, k)
  {
    var at: int := |s| - |pattern|;
    while at >= 0
      invariant at <= |s| - |pattern|
      invariant forall k :: at < k ==> !OccursAt(s, pattern, k)
    {
      if OccursAt(s, pattern, at) {
        return Some((s[..at], s[at + |pattern|..]));
      }
      at := at - 1;
    }
    return None;
  }

  /** The last place where `CODE` occurs in `clean + CODE + code` is right after `clean`. */
  lemma LastCode(clean: string, code: string)
    requires IsCode(code)
    ensures forall k :: |clean| < k ==> !OccursAt(clean + CODE + code, CODE, k)
    ensures OccursAt(clean + CODE + code, CODE, |clean|)
  {
    var s := clean + CODE + code;
    assert CODE[1..] == " Error code " && ':' !in " Error code ";
    forall i | |clean| < i < |s| ensures s[i] != ':' {
      if i < |clean| + |CODE| {
        assert s[i] == CODE[1..][i - |clean| - 1];
      } else {
        var j := i - |clean| - |CODE|;
        assert s[i] == code[j];
        assert j > 0 ==> code[j] == code[1..][j - 1];
      }
    }
    forall k | |clean| < k ensures !OccursAt(s, CODE, k) {
      if 0 <= k <= |s| - |CODE| {
        assert s[k..k + |CODE|][0] == s[k];
        assert CODE[0] == ':';
      }
    }
  }

  lemma SameBody(s: string, body: string, body': string)
    requires s == body + UNKNOWN == body' + UNKNOWN
    ensures body == body'
  {
    assert body == s[..|s| - |UNKNOWN|] == body';
  }

  /** Which text and which code a placeholder follows can be read off the string. */
  lemma PlaceheldIsUnique(s: string, clean: string, code: string, clean': string, code': string)
    requires IsCode(code) && IsCode(code')
    requires s == clean + Placeholder(code) == clean' + Placeholder(code')
    ensures clean == clean'
  {
    var body, body' := clean + CODE + code, clean' + CODE + code';
    assert s == body + UNKNOWN && s == body' + UNKNOWN;
    SameBody(s, body, body');
    LastCode(clean, code);
    LastCode(clean', code');
    assert clean == body[..|clean|] && clean' == body'[..|clean'|];
  }

  lemma {:induction false} CleanedFromIsUnique(s: string, m: string, m': string)
    requires CleanedFrom(s, m) && Clean(m)
    requires CleanedFrom(s, m') && Clean(m')
    ensures m == m'
    decreases |s|
  {
    if s != m && s != m' {
      var t :| |t| < |s| && Placeheld(s, t) && CleanedFrom(t, m);
      var t' :| |t'| < |s| && Placeheld(s, t') && CleanedFrom(t', m');
      var code :| IsCode(code) && s == t + Placeholder(code);
      var code' :| IsCode(code') && s == t' + Placeholder(code');
      PlaceheldIsUnique(s, t, code, t', code');
      CleanedFromIsUnique(t, m, m');
    }
  }

  lemma {:induction false} CleanedFromIsTransitive(s: string, m: string, n: string)
    requires CleanedFrom(s, m) && CleanedFrom(m, n)
    ensures CleanedFrom(s, n)
    decreases |s|
  {
    if s != m {
      var t :| |t| < |s| && Placeheld(s, t) && CleanedFrom(t, m);
      CleanedFromIsTransitive(t, m, n);
    }
  }

  lemma {:induction false} CleanedFromIsPrefix(s: string, m: string)
    requires CleanedFrom(s, m)
    ensures m <= s
    decreases |s|
  {
    if s != m {
      var t :| |t| < |s| && Placeheld(s, t) && CleanedFrom(t, m);
      CleanedFromIsPrefix(t, m);
    }
  }

  lemma {:induction false} OnePlaceholderLess(error: string, message: string, clean: string, code: string)
    requires CleanedFrom(error, message) && IsCode(code) && message == clean + CODE + code + UNKNOWN
    ensures |clean| < |message| && message[..|clean|] == clean && CleanedFrom(error, clean)
  {
    assert message == clean + Placeholder(code);
    assert Placeheld(message, clean);
    CleanedFromIsTransitive(error, message, clean);
  }

  lemma NotEnded(message: string)
    requires !EndsWith(message, UNKNOWN)
    ensures Clean(message)
  {
    EndsWithMeaning(message, UNKNOWN);
    forall shorter ensures !Placeheld(message, shorter) {
      forall code | IsCode(code) ensures message != shorter + Placeholder(code) {
        assert shorter + Placeholder(code) == (shorter + CODE + code) + UNKNOWN;
      }
    }
  }

  /** The loop of `format_query_error`, on the text of the error chain. */
  method FormatQueryError(error: string) returns (message: string)
    ensures CleanedFrom(error, message)
    ensures Clean(message)
    ensures message <= error
  {
    message := error;
    while true
      invariant CleanedFrom(error, message)
      decreases |message|
    {
      if !EndsWith(message, UNKNOWN) {
        NotEnded(message);
        break;
      }
      var prefix := message[..|message| - |UNKNOWN|];
      assert message == prefix + UNKNOWN;
      var split := RSplitOnce(prefix, CODE);
      if split.None? {
        NotPlaceheld(message, prefix);
        break;
      }
      var (clean, code) := split.value;
      var digits := if code != "" && code[0] == '-' then code[1..] else code;
      if !IsDigits(digits) {
        NotPlaceheldAt(message, prefix, clean, code);
        break;
      }
      OnePlaceholderLess(error, message, clean, code);
      message := message[..|clean|];
    }
    CleanedFromIsPrefix(error, message);
  }

  /** What a placeheld message looks like once the fixed ending is off. */
  lemma PlaceheldBody(prefix: string, shorter: string)
    ensures Placeheld(prefix + UNKNOWN, shorter) ==>
              OccursAt(prefix, CODE, |shorter|) && IsCode(prefix[|shorter| + |CODE|..]) &&
              forall k :: |shorter| < k ==> !OccursAt(prefix, CODE, k)
  {
    if Placeheld(prefix + UNKNOWN, shorter) {
      var code :| IsCode(code) && prefix + UNKNOWN == shorter + Placeholder(code);
      assert prefix + UNKNOWN == (shorter + CODE + code) + UNKNOWN;
      assert prefix == (prefix + UNKNOWN)[..|prefix|] == shorter + CODE + code;
      LastCode(shorter, code);
      assert prefix[|shorter| + |CODE|..] == code;
    }
  }

  lemma NotPlaceheld(message: string, prefix: string)
    requires message == prefix + UNKNOWN
    requires forall k :: !OccursAt(prefix, CODE, k)
    ensures Clean(message)
  {
    forall shorter ensures !Placeheld(message, shorter) {
      PlaceheldBody(prefix, shorter);
    }
  }

  lemma NotPlaceheldAt(message: string, prefix: string, clean: string, code: string)
    requires message == prefix + UNKNOWN && prefix == clean + CODE + code
    requires forall k :: |clean| < k ==> !OccursAt(prefix, CODE, k)
    requires !IsCode(code)
    ensures Clean(message)
  {
    assert OccursAt(prefix, CODE, |clean|);
    assert prefix[|clean| + |CODE|..] == code;
    forall shorter ensures !Placeheld(message, shorter) {
      PlaceheldBody(prefix, shorter);
    }
  }

  /** A message followed by the placeholders of `codes`. */
  function WithPlaceholders(m: string, codes: seq<string>): string {
    if codes == [] then m else WithPlaceholders(m, codes[..|codes| - 1]) + Placeholder(codes[|codes| - 1])
  }

  lemma {:induction false} AppendedPlaceholders(m: string, codes: seq<string>)
    requires forall c :: c in codes ==> IsCode(c)
    ensures CleanedFrom(WithPlaceholders(m, codes), m)
  {
    if codes != [] {
      var init, last := codes[..|codes| - 1], codes[|codes| - 1];
      AppendedPlaceholders(m, init);
      assert Placeheld(WithPlaceholders(m, codes), WithPlaceholders(m, init));
    }
  }

  /** Whatever the loop returns on a clean message followed by placeholders is that message;
      in particular a second pass changes nothing. */
  lemma {:induction false} PlaceholdersAreRemoved(m: string, codes: seq<string>, message: string)
    requires Clean(m)
    requires forall c :: c in codes ==> IsCode(c)
    requires CleanedFrom(WithPlaceholders(m, codes), message) && Clean(message)
    ensures message == m
  {
    AppendedPlaceholders(m, codes);
    CleanedFromIsUnique(WithPlaceholders(m, codes), m, message);
  }

  /** An error code: a sign or none, and digits. */
  predicate MinusDigits(minus: string, digits: string) {
    minus in {"", "-"} && digits != "" && forall c :: c in digits ==> '0' <= c <= '9'
  }

  lemma RegroupText(clean: string, head: string, minus: string, digits: string, end: string)
    ensures clean + (head + (minus + digits) + end) == clean + head + minus + digits + end
  {
  }

  lemma PlaceholderMeaning(clean: string, minus: string, digits: string)
    ensures clean + Placeholder(minus + digits) == clean + ": Error code " + minus + digits + ": Unknown error code"
  {
    RegroupText(clean, CODE, minus, digits, UNKNOWN);
  }

  lemma CodeParts(code: string) returns (minus: string, digits: string)
    requires IsCode(code)
    ensures MinusDigits(minus, digits) && code == minus + digits
  {
    minus := if code[0] == '-' then "-" else "";
    digits := if code[0] == '-' then code[1..] else code;
  }

  /** What a placeholder is, letter by letter. */
  lemma PlaceheldMeaning(s: string, clean: string)
    ensures Placeheld(s, clean) <==>
            exists minus, digits ::
              && MinusDigits(minus, digits)
              && s == clean + ": Error code " + minus + digits + ": Unknown error code"
  {
    if Placeheld(s, clean) {
      var code :| IsCode(code) && s == clean + Placeholder(code);
      var minus, digits := CodeParts(code);
      PlaceholderMeaning(clean, minus, digits);
    }
    if minus, digits :| && MinusDigits(minus, digits)
                        && s == clean + ": Error code " + minus + digits + ": Unknown error code" {
      CodeOf(minus, digits);
      PlaceholderMeaning(clean, minus, digits);
    }
  }

  lemma CodeOf(minus: string, digits: string)
    requires MinusDigits(minus, digits)
    ensures IsCode(minus + digits)
  {
    if minus == "" {
      assert minus + digits == digits && digits[0] in digits;
    } else {
      assert (minus + digits)[1..] == digits;
    }
  }
}
