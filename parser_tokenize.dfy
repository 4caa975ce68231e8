/**
 * The shell-like line tokenizer of parser_tokenize.py.
 *
 * `_get_token` scans one token from position i: a run of whitespace (the
 * token's prefix), then characters up to an unquoted whitespace or `#`.
 * Quote characters are dropped, a backslash outside quotes escapes the next
 * character, and an unquoted `#` at the start of a token turns the rest of
 * the line into an unparsed suffix.
 */
module ParserTokenize {
  import opened Wrappers
  import opened TypeUtils

  /** LineParseError(index, msg). */
  datatype LineParseError = LineParseError(index: nat, msg: string)

  /** Token(val, prefix): the whitespace before the token and its unquoted value. */
  datatype Token = Token(prefix: string, value: string)

  /**
   * What `_get_token` gives back: a token and the index after it, the string
   * `line[i0:]` when a comment starts the token (the index it returns with it
   * is always `len(line)`), or a raised LineParseError.
   */
  datatype Scan = Tok(tok: Token, next: nat) | Rest(suffix: string) | Raise(error: LineParseError)

  /**
   * The `quote` variable of `_get_token`: `' '` while the prefix is consumed,
   * None outside quotes, or the opening quote character.
   */
  datatype QuoteState = Prefix | NoQuote | InQuote(c: char)

  predicate IsQuoteChar(c: char) { c == '"' || c == '\'' }

  // ---------------------------------------------------------------------------
  // Specification of _get_token

  /** The index of the first non-whitespace character at or after i, or |line|. */
  function SkipSpaces(line: string, i: nat): (j: nat)
    requires i <= |line|
    ensures i <= j <= |line|
    decreases |line| - i
  {
    if i == |line| || !IsSpace(line[i]) then i else SkipSpaces(line, i + 1)
  }

  /**
   * The second loop of `_get_token` from index i, with the prefix ending at
   * i1 and the token collected so far.
   */
  function Lex(line: string, i0: nat, i1: nat, i: nat, quote: QuoteState, escape: bool, token: string): (r: Scan)
    requires i0 <= i1 <= i <= |line|
    ensures r.Tok? ==> i <= r.next <= |line| && |r.tok.value| <= |token| + (r.next - i)
    decreases |line| - i, if quote == Prefix then 1 else 0
  {
    if i == |line| then
      if quote != NoQuote then Raise(LineParseError(i, "unclosed quote"))
      else if escape then Raise(LineParseError(i, "unclosed escape"))
      else Tok(Token(line[i0..i1], token), i)
    else if quote == Prefix then
      if !IsSpace(line[i]) then Lex(line, i0, i1, i, NoQuote, escape, token)
      else Lex(line, i0, i + 1, i + 1, Prefix, escape, token)
    else if escape then Lex(line, i0, i1, i + 1, quote, false, token + [line[i]])
    else if quote.InQuote? && line[i] == quote.c then Lex(line, i0, i1, i + 1, NoQuote, escape, token)
    else if line[i] == '#' && quote == NoQuote then
      if token == "" then Rest(line[i0..]) else Tok(Token(line[i0..i1], token), i)
    else if IsSpace(line[i]) && quote == NoQuote then Tok(Token(line[i0..i1], token), i)
    else if IsQuoteChar(line[i]) && quote == NoQuote then Lex(line, i0, i1, i + 1, InQuote(line[i]), escape, token)
    else if line[i] == '\\' && quote == NoQuote then Lex(line, i0, i1, i + 1, quote, true, token)
    else Lex(line, i0, i1, i + 1, quote, escape, token + [line[i]])
  }

  /**
   * `_get_token(line, i)`. When only whitespace is left the result is
   * `Token('', line)`: its prefix is the whole line, not `line[i0:]`.
   */
  function GetTokenSpec(line: string, i: nat): (r: Scan)
    requires i <= |line|
    ensures r.Tok? ==> i <= r.next <= |line| && (r.tok.value != "" ==> r.next > i)
  {
    var i1 := SkipSpaces(line, i);
    if i1 == |line| then Tok(Token(line, ""), i1)
    else Lex(line, i, i1, i1, Prefix, false, "")
  }

  /** `_get_token`, with its two loops. */
  method GetToken(line: string, i: nat) returns (r: Scan)
    requires i <= |line|
    ensures r == GetTokenSpec(line, i)
  {
    var i0 := i;
    var k := i;
    while true
      invariant i0 <= k <= |line|
      invariant SkipSpaces(line, k) == SkipSpaces(line, i0)
      decreases |line| - k
    {
      if k == |line| {
        return Tok(Token(line, ""), k);
      }
      if !IsSpace(line[k]) {
        break;
      }
      k := k + 1;
    }
    var i1 := k;
    var quote := Prefix;
    var escape := false;
    var token := "";
    while true
      invariant i0 <= i1 <= k <= |line|
      invariant Lex(line, i0, i1, k, quote, escape, token) == GetTokenSpec(line, i0)
      decreases |line| - k, if quote == Prefix then 1 else 0
    {
      if k == |line| {
        if quote != NoQuote {
          return Raise(LineParseError(k, "unclosed quote"));
        }
        if escape {
          return Raise(LineParseError(k, "unclosed escape"));
        } else {
          return Tok(Token(line[i0..i1], token), k);
        }
      }
      if quote == Prefix {
        if !IsSpace(line[k]) {
          quote := NoQuote;
        } else {
          k := k + 1;
          i1 := k;
        }
        continue;
      }
      if escape {
        token := token + [line[k]];
        escape := false;
      } else if quote.InQuote? && line[k] == quote.c {
        quote := NoQuote;
      } else if line[k] == '#' && quote == NoQuote {
        if token == "" {
          return Rest(line[i0..]);
        }
        break;
      } else if IsSpace(line[k]) && quote == NoQuote {
        break;
      } else if IsQuoteChar(line[k]) && quote == NoQuote {
        quote := InQuote(line[k]);
      } else if line[k] == '\\' && quote == NoQuote {
        escape := true;
      } else {
        token := token + [line[k]];
      }
      k := k + 1;
    }
    return Tok(Token(line[i0..i1], token), k);
  }

  // ---------------------------------------------------------------------------
  // Line

  /** A tokenized line: the raw text, its tokens and the unparsed suffix. */
  datatype Line = Line(rawLine: string, tokens: seq<Token>, suffix: string)

  /** The loop of `Line.__init__` from index i, with the tokens found so far. */
  function LineFrom(raw: string, i: nat, acc: seq<Token>): (r: Result<Line, LineParseError>)
    requires i <= |raw|
    ensures r.Ok? ==> r.value.rawLine == raw && |r.value.tokens| >= |acc| && r.value.tokens[..|acc|] == acc
    decreases |raw| - i
  {
    match GetTokenSpec(raw, i)
    case Raise(e) => Err(e)
    case Rest(s) => Ok(Line(raw, acc, s))
    case Tok(t, j) =>
      if t.value == "" then Ok(Line(raw, acc, t.prefix + t.value))
      else if j == |raw| then Ok(Line(raw, acc + [t], ""))
      else
        var r := LineFrom(raw, j, acc + [t]);
        assert r.Ok? ==> r.value.tokens[..|acc|] == r.value.tokens[..|acc| + 1][..|acc|];
        r
  }

  /** `Line(rawline)`: the line, or the LineParseError that `_get_token` raised. */
  function LineSpec(raw: string): Result<Line, LineParseError> {
    LineFrom(raw, 0, [])
  }

  /** `Line.__init__`. */
  method MakeLine(raw: string) returns (r: Result<Line, LineParseError>)
    ensures r == LineSpec(raw)
  {
    var tokens: seq<Token> := [];
    var suffix := "";
    var i := 0;
    while true
      invariant i <= |raw|
      invariant LineFrom(raw, i, tokens) == LineSpec(raw)
      decreases |raw| - i
    {
      var tok := GetToken(raw, i);
      match tok
      case Raise(e) =>
        return Err(e);
      case Rest(s) =>
        suffix := s;
        break;
      case Tok(t, j) =>
        if t.value == "" {
          suffix := t.prefix + t.value;
          break;
        }
        tokens := tokens + [t];
        i := j;
        if i == |raw| {
          break;
        }
    }
    return Ok(Line(raw, tokens, suffix));
  }

  /** `Line.token_values`: the token values, in token order. */
  function TokenValues(l: Line): (vs: seq<string>)
    ensures |vs| == |l.tokens|
    ensures forall k :: 0 <= k < |vs| ==> vs[k] == l.tokens[k].value
  {
    seq(|l.tokens|, k requires 0 <= k < |l.tokens| => l.tokens[k].value)
  }

  /** The text the tokens and their prefixes stand for, in order. */
  function Join(ts: seq<Token>): string {
    if ts == [] then "" else Join(ts[..|ts| - 1]) + ts[|ts| - 1].prefix + ts[|ts| - 1].value
  }

  /** Prefixes and values of the tokens, followed by the suffix. */
  function Reconstruct(l: Line): string {
    Join(l.tokens) + l.suffix
  }
}

/** What the tokenizer promises about tokens, prefixes, quotes and the suffix, proved. */
module ParserTokenizeFacts {
  import opened Wrappers
  import opened TypeUtils
  import opened ParserTokenize

  // ---------------------------------------------------------------------------
  // One call of _get_token

  /** The prefix loop stops at the first non-whitespace character and skips only whitespace. */
  lemma {:induction false} SkipSpacesRun(line: string, i: nat)
    requires i <= |line|
    ensures AllSpaces(line[i..SkipSpaces(line, i)])
    ensures SkipSpaces(line, i) < |line| ==> !IsSpace(line[SkipSpaces(line, i)])
    decreases |line| - i
  {
    if i < |line| && IsSpace(line[i]) {
      SkipSpacesRun(line, i + 1);
      var j := SkipSpaces(line, i);
      assert line[i..j] == [line[i]] + line[i + 1..j];
    }
  }

  /** Once the prefix is consumed, a token keeps `line[i0:i1]` as its prefix and a comment is `line[i0:]`. */
  lemma {:induction false} LexKeepsPrefix(line: string, i0: nat, i1: nat, i: nat, quote: QuoteState, escape: bool, token: string)
    requires i0 <= i1 <= i <= |line| && quote != Prefix
    ensures var r := Lex(line, i0, i1, i, quote, escape, token);
            (r.Tok? ==> r.tok.prefix == line[i0..i1]) && (r.Rest? ==> r.suffix == line[i0..])
    decreases |line| - i
  {
    if i < |line| {
      if escape {
        LexKeepsPrefix(line, i0, i1, i + 1, quote, false, token + [line[i]]);
      } else if quote.InQuote? && line[i] == quote.c {
        LexKeepsPrefix(line, i0, i1, i + 1, NoQuote, escape, token);
      } else if line[i] == '#' && quote == NoQuote {
      } else if IsSpace(line[i]) && quote == NoQuote {
      } else if IsQuoteChar(line[i]) && quote == NoQuote {
        LexKeepsPrefix(line, i0, i1, i + 1, InQuote(line[i]), escape, token);
      } else if line[i] == '\\' && quote == NoQuote {
        LexKeepsPrefix(line, i0, i1, i + 1, quote, true, token);
      } else {
        LexKeepsPrefix(line, i0, i1, i + 1, quote, escape, token + [line[i]]);
      }
    }
  }

  /**
   * A token with a value starts after exactly the whitespace run from i (the
   * end of the previous token) to its first character; a comment suffix is
   * everything from i.
   */
  lemma {:induction false} GetTokenPrefix(line: string, i: nat)
    requires i <= |line|
    ensures var r := GetTokenSpec(line, i);
            var j := SkipSpaces(line, i);
            (r.Tok? && r.tok.value != "" ==> j < |line| && r.tok.prefix == line[i..j] && AllSpaces(r.tok.prefix))
            && (r.Rest? ==> r.suffix == line[i..])
  {
    var j := SkipSpaces(line, i);
    SkipSpacesRun(line, i);
    if j < |line| {
      assert Lex(line, i, j, j, Prefix, false, "") == Lex(line, i, j, j, NoQuote, false, "");
      LexKeepsPrefix(line, i, j, j, NoQuote, false, "");
    }
  }

  /** An unquoted `#` where a token would start makes the rest of the line, from i, the suffix. */
  lemma {:induction false} CommentStartsSuffix(line: string, i: nat)
    requires i <= |line|
    requires SkipSpaces(line, i) < |line| && line[SkipSpaces(line, i)] == '#'
    ensures GetTokenSpec(line, i) == Rest(line[i..])
  {
    var j := SkipSpaces(line, i);
    SkipSpacesRun(line, i);
    assert Lex(line, i, j, j, Prefix, false, "") == Lex(line, i, j, j, NoQuote, false, "");
  }

  /** Outside quotes, whitespace ends a token, and so does `#` after token characters. */
  lemma {:induction false} SpaceOrHashEndsToken(line: string, i0: nat, i1: nat, i: nat, token: string)
    requires i0 <= i1 <= i < |line|
    requires IsSpace(line[i]) || (line[i] == '#' && token != "")
    ensures Lex(line, i0, i1, i, NoQuote, false, token) == Tok(Token(line[i0..i1], token), i)
  {
  }

  /**
   * Between matching quotes every character is copied literally, whitespace,
   * `#`, the other quote character and backslash included; the quotes are dropped.
   */
  lemma {:induction false} QuotedCopiedLiterally(line: string, i0: nat, i1: nat, i: nat, k: nat, c: char, token: string)
    requires i0 <= i1 <= i <= k < |line|
    requires line[k] == c && forall m :: i <= m < k ==> line[m] != c
    ensures Lex(line, i0, i1, i, InQuote(c), false, token) == Lex(line, i0, i1, k + 1, NoQuote, false, token + line[i..k])
    decreases k - i
  {
    if i < k {
      QuotedCopiedLiterally(line, i0, i1, i + 1, k, c, token + [line[i]]);
      assert token + [line[i]] + line[i + 1..k] == token + line[i..k];
    } else {
      assert token + line[i..k] == token;
    }
  }

  /** An opening quote whose character does not occur again is an unclosed quote at len(line). */
  lemma {:induction false} UnclosedQuote(line: string, i0: nat, i1: nat, i: nat, c: char, token: string)
    requires i0 <= i1 <= i <= |line|
    requires forall m :: i <= m < |line| ==> line[m] != c
    ensures Lex(line, i0, i1, i, InQuote(c), false, token) == Raise(LineParseError(|line|, "unclosed quote"))
    decreases |line| - i
  {
    if i < |line| {
      UnclosedQuote(line, i0, i1, i + 1, c, token + [line[i]]);
    }
  }

  /** Outside quotes a backslash takes the next character literally; as the last character it is an unclosed escape. */
  lemma {:induction false} BackslashEscapes(line: string, i0: nat, i1: nat, i: nat, token: string)
    requires i0 <= i1 <= i < |line| && line[i] == '\\'
    ensures i + 1 < |line| ==> Lex(line, i0, i1, i, NoQuote, false, token) == Lex(line, i0, i1, i + 2, NoQuote, false, token + [line[i + 1]])
    ensures i + 1 == |line| ==> Lex(line, i0, i1, i, NoQuote, false, token) == Raise(LineParseError(|line|, "unclosed escape"))
  {
    assert Lex(line, i0, i1, i, NoQuote, false, token) == Lex(line, i0, i1, i + 1, NoQuote, true, token);
  }

  lemma {:induction false} AllSpacesSkipped(line: string, i: nat)
    requires i <= |line| && AllSpaces(line[i..])
    ensures SkipSpaces(line, i) == |line|
    decreases |line| - i
  {
    if i < |line| {
      assert line[i] == line[i..][0];
      assert line[i + 1..] == line[i..][1..];
      AllSpacesSkipped(line, i + 1);
    }
  }

  /** `_get_token` answers `Token('', line)` exactly when nothing but whitespace is left. */
  lemma {:induction false} OnlySpacesLeft(line: string, i: nat)
    requires i <= |line|
    ensures GetTokenSpec(line, i) == Tok(Token(line, ""), |line|) <==> AllSpaces(line[i..])
  {
    var j := SkipSpaces(line, i);
    SkipSpacesRun(line, i);
    if AllSpaces(line[i..]) {
      AllSpacesSkipped(line, i);
    } else if j < |line| {
      assert Lex(line, i, j, j, Prefix, false, "") == Lex(line, i, j, j, NoQuote, false, "");
      LexKeepsPrefix(line, i, j, j, NoQuote, false, "");
      assert |line[i..j]| < |line|;
    }
  }

  // ---------------------------------------------------------------------------
  // Line

  /** Every stored token has a non-empty value and an all-whitespace prefix. */
  lemma {:induction false} StoredTokens(raw: string)
    ensures var r := LineSpec(raw);
            r.Ok? ==> forall k :: 0 <= k < |r.value.tokens| ==>
              r.value.tokens[k].value != "" && AllSpaces(r.value.tokens[k].prefix)
  {
    StoredTokensFrom(raw, 0, []);
  }

  lemma {:induction false} StoredTokensFrom(raw: string, i: nat, acc: seq<Token>)
    requires i <= |raw|
    requires forall k :: 0 <= k < |acc| ==> acc[k].value != "" && AllSpaces(acc[k].prefix)
    ensures var r := LineFrom(raw, i, acc);
            r.Ok? ==> forall k :: 0 <= k < |r.value.tokens| ==>
              r.value.tokens[k].value != "" && AllSpaces(r.value.tokens[k].prefix)
    decreases |raw| - i
  {
    GetTokenPrefix(raw, i);
    match GetTokenSpec(raw, i)
    case Raise(_) =>
    case Rest(_) =>
    case Tok(t, j) =>
      if t.value != "" && j < |raw| {
        StoredTokensFrom(raw, j, acc + [t]);
      }
  }

  /** A blank or whitespace-only line has no tokens, and the whole line is its suffix. */
  lemma {:induction false} BlankLine(raw: string)
    requires AllSpaces(raw)
    ensures LineSpec(raw) == Ok(Line(raw, [], raw))
  {
    assert raw[0..] == raw;
    OnlySpacesLeft(raw, 0);
    assert raw + "" == raw;
  }

  // ---------------------------------------------------------------------------
  // Reconstruction of lines without quotes or backslashes

  /** No quote character and no backslash. */
  predicate Plain(s: string) {
    forall m :: 0 <= m < |s| ==> !IsQuoteChar(s[m]) && s[m] != '\\'
  }

  /** The end of an unquoted word starting at i: the next whitespace, `#` or the end of the line. */
  function WordEnd(line: string, i: nat): (k: nat)
    requires i <= |line|
    ensures i <= k <= |line|
    ensures k == |line| || IsSpace(line[k]) || line[k] == '#'
    decreases |line| - i
  {
    if i == |line| || IsSpace(line[i]) || line[i] == '#' then i else WordEnd(line, i + 1)
  }

  lemma {:induction false} WordEndSkips(line: string, i: nat)
    requires i <= |line|
    ensures forall m :: i <= m < WordEnd(line, i) ==> !IsSpace(line[m]) && line[m] != '#'
    decreases |line| - i
  {
    if i < |line| && !IsSpace(line[i]) && line[i] != '#' {
      WordEndSkips(line, i + 1);
    }
  }

  lemma {:induction false} PlainWordLex(line: string, i0: nat, i1: nat, i: nat, token: string)
    requires Plain(line) && i0 <= i1 < i <= |line| && token == line[i1..i]
    ensures Lex(line, i0, i1, i, NoQuote, false, token) == Tok(Token(line[i0..i1], line[i1..WordEnd(line, i)]), WordEnd(line, i))
    decreases |line| - i
  {
    if i < |line| && !IsSpace(line[i]) && line[i] != '#' {
      assert !IsQuoteChar(line[i]) && line[i] != '\\';
      assert line[i1..i + 1] == token + [line[i]];
      PlainWordLex(line, i0, i1, i + 1, token + [line[i]]);
    }
  }

  /** In a plain line a token is the whitespace run and the word that follows it. */
  lemma {:induction false} PlainToken(raw: string, i: nat)
    requires Plain(raw) && i <= |raw|
    requires SkipSpaces(raw, i) < |raw| && raw[SkipSpaces(raw, i)] != '#'
    ensures var j := SkipSpaces(raw, i);
            GetTokenSpec(raw, i) == Tok(Token(raw[i..j], raw[j..WordEnd(raw, j + 1)]), WordEnd(raw, j + 1))
  {
    var j := SkipSpaces(raw, i);
    SkipSpacesRun(raw, i);
    assert !IsQuoteChar(raw[j]) && raw[j] != '\\';
    assert Lex(raw, i, j, j, Prefix, false, "") == Lex(raw, i, j, j, NoQuote, false, "");
    assert "" + [raw[j]] == [raw[j]];
    assert Lex(raw, i, j, j, NoQuote, false, "") == Lex(raw, i, j, j + 1, NoQuote, false, [raw[j]]);
    assert [raw[j]] == raw[j..j + 1];
    PlainWordLex(raw, i, j, j + 1, [raw[j]]);
  }

  lemma {:induction false} JoinSnoc(acc: seq<Token>, t: Token)
    ensures Join(acc + [t]) == Join(acc) + t.prefix + t.value
  {
    assert (acc + [t])[..|acc|] == acc;
  }

  /**
   * The condition, from position i on, under which the tokens and the suffix
   * give back the line: a `#` comment follows, or the line ends on a token
   * character, or (at the start) the line is blank.
   */
  predicate RestRebuilds(raw: string, i: nat)
    requires i <= |raw|
  {
    '#' in raw[i..] || (i < |raw| && !IsSpace(raw[|raw| - 1])) || (i == 0 && AllSpaces(raw))
  }

  lemma {:induction false} PlainLineFrom(raw: string, i: nat, acc: seq<Token>)
    requires Plain(raw) && i <= |raw| && Join(acc) == raw[..i]
    requires (i == 0) == (acc == [])
    requires i > 0 ==> !IsSpace(raw[i - 1])
    ensures LineFrom(raw, i, acc).Ok?
    ensures RestRebuilds(raw, i) ==> Reconstruct(LineFrom(raw, i, acc).value) == raw
    ensures !RestRebuilds(raw, i) ==> LineFrom(raw, i, acc).value.suffix == raw && LineFrom(raw, i, acc).value.tokens != []
    decreases |raw| - i
  {
    var j := SkipSpaces(raw, i);
    SkipSpacesRun(raw, i);
    if j == |raw| {
      PlainLineEndsInSpaces(raw, i, acc);
    } else if raw[j] == '#' {
      PlainLineComment(raw, i, acc);
    } else {
      var k := PlainLineWord(raw, i, acc);
      var t := Token(raw[i..j], raw[j..k]);
      if k == |raw| {
        assert raw[..k] + "" == raw;
      } else {
        RestRebuildsAcrossWord(raw, i, j, k);
        PlainLineFrom(raw, k, acc + [t]);
      }
    }
  }

  /** Only whitespace from i on: the whole line becomes the suffix. */
  lemma {:induction false} PlainLineEndsInSpaces(raw: string, i: nat, acc: seq<Token>)
    requires i <= |raw| && Join(acc) == raw[..i]
    requires (i == 0) == (acc == [])
    requires SkipSpaces(raw, i) == |raw|
    ensures LineFrom(raw, i, acc) == Ok(Line(raw, acc, raw))
    ensures RestRebuilds(raw, i) <==> i == 0
    ensures i == 0 ==> Reconstruct(Line(raw, acc, raw)) == raw
  {
    SkipSpacesRun(raw, i);
    assert raw + "" == raw;
    assert raw[i..] == raw[i..|raw|];
    if i == 0 {
      assert raw[..0] == [];
      assert raw[0..] == raw;
    } else {
      assert '#' !in raw[i..] by {
        forall m | 0 <= m < |raw[i..]| ensures raw[i..][m] != '#' { assert IsSpace(raw[i..][m]); }
      }
      assert i < |raw| ==> IsSpace(raw[i..][|raw| - 1 - i]);
    }
  }

  /** A comment where the next token would start: the rest of the line from i is the suffix. */
  lemma {:induction false} PlainLineComment(raw: string, i: nat, acc: seq<Token>)
    requires i <= |raw| && Join(acc) == raw[..i]
    requires SkipSpaces(raw, i) < |raw| && raw[SkipSpaces(raw, i)] == '#'
    ensures LineFrom(raw, i, acc) == Ok(Line(raw, acc, raw[i..]))
    ensures RestRebuilds(raw, i)
    ensures Reconstruct(Line(raw, acc, raw[i..])) == raw
  {
    var j := SkipSpaces(raw, i);
    CommentStartsSuffix(raw, i);
    assert raw[i..][j - i] == '#';
    assert raw[..i] + raw[i..] == raw;
  }

  /** A word from i: one more token, ending at k after the word. */
  lemma {:induction false} PlainLineWord(raw: string, i: nat, acc: seq<Token>) returns (k: nat)
    requires Plain(raw) && i <= |raw| && Join(acc) == raw[..i]
    requires SkipSpaces(raw, i) < |raw| && raw[SkipSpaces(raw, i)] != '#'
    ensures SkipSpaces(raw, i) < k <= |raw| && !IsSpace(raw[k - 1])
    ensures forall m :: SkipSpaces(raw, i) + 1 <= m < k ==> raw[m] != '#'
    ensures var t := Token(raw[i..SkipSpaces(raw, i)], raw[SkipSpaces(raw, i)..k]);
            GetTokenSpec(raw, i) == Tok(t, k) && t.value != "" && Join(acc + [t]) == raw[..k]
  {
    var j := SkipSpaces(raw, i);
    SkipSpacesRun(raw, i);
    PlainToken(raw, i);
    k := WordEnd(raw, j + 1);
    WordEndSkips(raw, j + 1);
    var t := Token(raw[i..j], raw[j..k]);
    JoinSnoc(acc, t);
    assert raw[..i] + raw[i..j] + raw[j..k] == raw[..k];
    assert !IsSpace(raw[k - 1]);
  }

  lemma {:induction false} RestRebuildsAcrossWord(raw: string, i: nat, j: nat, k: nat)
    requires i <= j < k < |raw|
    requires AllSpaces(raw[i..j]) && !IsSpace(raw[j]) && raw[j] != '#'
    requires forall m :: j + 1 <= m < k ==> raw[m] != '#'
    ensures RestRebuilds(raw, i) <==> RestRebuilds(raw, k)
  {
    assert '#' !in raw[i..k] by {
      forall m | 0 <= m < |raw[i..k]| ensures raw[i..k][m] != '#' {
        if i + m < j { assert IsSpace(raw[i..j][m]); }
      }
    }
    assert raw[i..] == raw[i..k] + raw[k..];
    assert !AllSpaces(raw) by { assert !IsSpace(raw[j]); }
  }

  /**
   * A line without quotes or backslashes is rebuilt from its tokens' prefixes
   * and values and its suffix exactly when it has a `#` comment, ends on a
   * token character, or is blank.
   */
  lemma {:induction false} PlainRoundTrip(raw: string)
    requires Plain(raw)
    ensures LineSpec(raw).Ok?
    ensures Reconstruct(LineSpec(raw).value) == raw <==>
              ('#' in raw || (|raw| > 0 && !IsSpace(raw[|raw| - 1])) || AllSpaces(raw))
  {
    assert raw[..0] == [] && raw[0..] == raw;
    PlainLineFrom(raw, 0, []);
    var l := LineSpec(raw).value;
    if !RestRebuilds(raw, 0) {
      StoredTokens(raw);
      assert l.tokens[|l.tokens| - 1].value != "";
      assert |Join(l.tokens)| > 0;
    }
  }

  /** Quotes are not kept in a token, so a quoted line does not rebuild: `"a b"` gives `a b`. */
  lemma QuotedLineDoesNotRebuild()
    ensures LineSpec("\"a b\"") == Ok(Line("\"a b\"", [Token("", "a b")], ""))
    ensures Reconstruct(LineSpec("\"a b\"").value) == "a b"
  {
    var raw := "\"a b\"";
    var q := InQuote('"');
    assert SkipSpaces(raw, 0) == 0;
    assert Lex(raw, 0, 0, 0, Prefix, false, "") == Lex(raw, 0, 0, 1, q, false, "");
    assert Lex(raw, 0, 0, 1, q, false, "") == Lex(raw, 0, 0, 4, q, false, "a b");
    assert Lex(raw, 0, 0, 4, q, false, "a b") == Tok(Token("", "a b"), 5);
  }

  /** Nor is an escaping backslash: `a\ b` gives the single token `a b`. */
  lemma EscapedLineDoesNotRebuild()
    ensures LineSpec("a\\ b") == Ok(Line("a\\ b", [Token("", "a b")], ""))
    ensures Reconstruct(LineSpec("a\\ b").value) == "a b"
  {
    var raw := "a\\ b";
    assert SkipSpaces(raw, 0) == 0;
    assert Lex(raw, 0, 0, 0, Prefix, false, "") == Lex(raw, 0, 0, 2, NoQuote, true, "a");
    assert Lex(raw, 0, 0, 2, NoQuote, true, "a") == Lex(raw, 0, 0, 3, NoQuote, false, "a ");
    assert Lex(raw, 0, 0, 3, NoQuote, false, "a ") == Tok(Token("", "a b"), 4);
  }

  /**
   * Whitespace after the last token of a plain line, with no comment: the
   * suffix is the entire raw line, because `Token('', line)` is returned.
   */
  lemma {:induction false} TrailingSpaceSwallowsLine(raw: string)
    requires Plain(raw) && '#' !in raw && |raw| > 0 && IsSpace(raw[|raw| - 1]) && !AllSpaces(raw)
    ensures LineSpec(raw).Ok?
    ensures LineSpec(raw).value.suffix == raw && LineSpec(raw).value.tokens != []
  {
    assert raw[..0] == [] && raw[0..] == raw;
    PlainLineFrom(raw, 0, []);
  }
}
