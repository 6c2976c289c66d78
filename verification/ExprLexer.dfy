/** The lexer of the rule expression language (server/internal/router/expr/expr.go).
    A character stands for one source byte; token positions only feed error messages and are
    not kept. */
module ExprLexer {
  import opened Prelude
  import opened ExprSyntax

  datatype Token =
    | IntTok(n: int)
    | StrTok(s: string)
    | BoolTok(b: bool)
    | IdentTok(name: string)
    | OpTok(op: string)
    | LParen
    | RParen
    | Eof

  datatype LexError = UnterminatedString | UnexpectedChar

  type Tokens = Result<seq<Token>, LexError>

  predicate IsSpace(c: char) { c == ' ' || c == '\t' || c == '\n' || c == '\r' }

  predicate IsDigit(c: char) { '0' <= c <= '9' }

  predicate IsIdentStart(c: char) { c == '_' || 'a' <= c <= 'z' || 'A' <= c <= 'Z' }

  predicate IsIdentPart(c: char) { IsIdentStart(c) || IsDigit(c) }

  // ------------------------------------------------------------------ specification

  /** Length of the longest prefix of digits. */
  function DigitRun(s: string): (n: nat)
    ensures n <= |s|
  {
    if s != "" && IsDigit(s[0]) then 1 + DigitRun(s[1..]) else 0
  }

  /** Length of the longest prefix of identifier characters. */
  function IdentRun(s: string): (n: nat)
    ensures n <= |s|
  {
    if s != "" && IsIdentPart(s[0]) then 1 + IdentRun(s[1..]) else 0
  }

  /** A decoded literal and how many characters precede its closing quote. */
  datatype Body = Body(text: string, len: nat)

  function Escapes(s: string): bool {
    |s| >= 2 && s[0] == '\\'
  }

  /** The text up to the first unescaped quote; a backslash keeps the character after it. */
  function StringBody(s: string, quote: char): (r: Option<Body>)
    ensures r.Some? ==> r.value.len < |s|
  {
    if s == "" then None
    else if s[0] == quote then Some(Body("", 0))
    else
      var skip := if Escapes(s) then 1 else 0;
      match StringBody(s[skip + 1..], quote)
      case None => None
      case Some(Body(text, len)) => Some(Body([s[skip]] + text, len + skip + 1))
  }

  function DecValue(s: string): int {
    if s == "" then 0 else 10 * DecValue(s[..|s| - 1]) + (s[|s| - 1] as int - '0' as int)
  }

  /** strconv.Atoi with its error ignored: out-of-range text gives the largest integer. */
  function Atoi(s: string): int {
    Min(DecValue(s), MAX_INT64)
  }

  function WordToken(w: string): Token {
    if w == "true" then BoolTok(true) else if w == "false" then BoolTok(false) else IdentTok(w)
  }

  /** One token and its length in characters. */
  datatype Lexed = Lexed(tok: Token, len: nat)

  function Scan(s: string): (r: Result<Lexed, LexError>)
    requires s != "" && !IsSpace(s[0])
    ensures r.Ok? ==> 0 < r.value.len <= |s|
  {
    var c := s[0];
    if c == '(' then Ok(Lexed(LParen, 1))
    else if c == ')' then Ok(Lexed(RParen, 1))
    else if c == '"' || c == '\'' then
      (match StringBody(s[1..], c)
       case None => Err(UnterminatedString)
       case Some(Body(text, len)) => Ok(Lexed(StrTok(text), len + 2)))
    else if c == '&' || c == '|' then
      if |s| >= 2 && s[1] == c then Ok(Lexed(OpTok([c, c]), 2)) else Err(UnexpectedChar)
    else if c == '=' || c == '!' || c == '<' || c == '>' then
      if |s| >= 2 && s[1] == '=' then Ok(Lexed(OpTok([c, '=']), 2))
      else if c == '=' then Err(UnexpectedChar)
      else Ok(Lexed(OpTok([c]), 1))
    else if IsDigit(c) then
      var n := DigitRun(s);
      Ok(Lexed(IntTok(Atoi(s[..n])), n))
    else if IsIdentStart(c) then
      var n := IdentRun(s);
      Ok(Lexed(WordToken(s[..n]), n))
    else Err(UnexpectedChar)
  }

  function Prepend(toks: seq<Token>, rest: Tokens): Tokens {
    if rest.Ok? then Ok(toks + rest.value) else rest
  }

  /** The whole token sequence, closed by Eof. */
  function LexSpec(s: string): (r: Tokens)
    ensures r.Ok? ==> |r.value| >= 1 && r.value[|r.value| - 1] == Eof
    ensures r.Ok? ==> forall i | 0 <= i < |r.value| - 1 :: r.value[i] != Eof
  {
    if s == "" then Ok([Eof])
    else if IsSpace(s[0]) then LexSpec(s[1..])
    else
      match Scan(s)
      case Err(e) => Err(e)
      case Ok(Lexed(tok, len)) => Prepend([tok], LexSpec(s[len..]))
  }

  // ------------------------------------------------------------------ the loops of the source

  /** A body found further on, with the text and length already consumed put in front. */
  function After(text: string, len: nat, r: Option<Body>): Option<Body> {
    if r.None? then None else Some(Body(text + r.value.text, len + r.value.len))
  }

  lemma AfterOne(text: string, len: nat, s: string, quote: char)
    requires s != "" && s[0] != quote
    ensures var skip := if Escapes(s) then 1 else 0;
            After(text, len, StringBody(s, quote))
            == After(text + [s[skip]], len + skip + 1, StringBody(s[skip + 1..], quote))
  {
    var skip := if Escapes(s) then 1 else 0;
    var r := StringBody(s[skip + 1..], quote);
    if r.Some? {
      assert text + ([s[skip]] + r.value.text) == (text + [s[skip]]) + r.value.text;
    }
  }

  method ScanString(src: string, start: nat, quote: char) returns (r: Option<Body>)
    requires start <= |src|
    ensures r == StringBody(src[start..], quote)
  {
    hide StringBody, Escapes;
    var j := start;
    var sb := "";
    AfterNothing(src[start..], quote);
    while j < |src| && src[j] != quote
      invariant start <= j <= |src|
      invariant StringBody(src[start..], quote) == After(sb, j - start, StringBody(src[j..], quote))
    {
      AfterOne(sb, j - start, src[j..], quote);
      EscapesAt(src, j);
      if src[j] == '\\' && j + 1 < |src| {
        j := j + 1;
      }
      sb := sb + [src[j]];
      j := j + 1;
    }
    StringEnds(src[j..], quote);
    if j >= |src| {
      return None;
    }
    assert sb + "" == sb;
    return Some(Body(sb, j - start));
  }

  lemma AfterNothing(s: string, quote: char)
    ensures StringBody(s, quote) == After("", 0, StringBody(s, quote))
  {
    var r := StringBody(s, quote);
    if r.Some? {
      assert "" + r.value.text == r.value.text;
    }
  }

  lemma EscapesAt(src: string, j: nat)
    requires j < |src|
    ensures Escapes(src[j..]) <==> src[j] == '\\' && j + 1 < |src|
    ensures src[j..][1..] == src[j + 1..]
    ensures j + 1 < |src| ==> src[j..][2..] == src[j + 2..] && src[j..][1] == src[j + 1]
  {
  }

  lemma StringEnds(s: string, quote: char)
    requires s == "" || s[0] == quote
    ensures StringBody(s, quote) == if s == "" then None else Some(Body("", 0))
  {
  }

  method ScanDigits(src: string, start: nat) returns (j: nat)
    requires start <= |src|
    ensures j == start + DigitRun(src[start..])
  {
    j := start;
    while j < |src| && IsDigit(src[j])
      invariant start <= j <= |src|
      invariant DigitRun(src[start..]) == j - start + DigitRun(src[j..])
    {
      assert src[j..][1..] == src[j + 1..];
      j := j + 1;
    }
  }

  method ScanIdent(src: string, start: nat) returns (j: nat)
    requires start <= |src|
    ensures j == start + IdentRun(src[start..])
  {
    j := start;
    while j < |src| && IsIdentPart(src[j])
      invariant start <= j <= |src|
      invariant IdentRun(src[start..]) == j - start + IdentRun(src[j..])
    {
      assert src[j..][1..] == src[j + 1..];
      j := j + 1;
    }
  }

  /** One arm of the source's switch: the token that starts at i. */
  method ScanToken(src: string, i: nat) returns (r: Result<Lexed, LexError>)
    requires i < |src| && !IsSpace(src[i])
    ensures r == Scan(src[i..])
  {
    var c := src[i];
    ghost var here := src[i..];
    if c == '(' {
      return Ok(Lexed(LParen, 1));
    } else if c == ')' {
      return Ok(Lexed(RParen, 1));
    } else if c == '"' || c == '\'' {
      assert here[1..] == src[i + 1..];
      var body := ScanString(src, i + 1, c);
      return if body.None? then Err(UnterminatedString) else Ok(Lexed(StrTok(body.value.text), body.value.len + 2));
    } else if c == '&' || c == '|' {
      if i + 1 < |src| && src[i + 1] == c {
        return Ok(Lexed(OpTok([c, c]), 2));
      }
    } else if c == '=' || c == '!' || c == '<' || c == '>' {
      if i + 1 < |src| && src[i + 1] == '=' {
        return Ok(Lexed(OpTok([c, '=']), 2));
      } else if c != '=' {
        return Ok(Lexed(OpTok([c]), 1));
      }
    } else if IsDigit(c) {
      var j := ScanDigits(src, i);
      assert here[..j - i] == src[i..j];
      return Ok(Lexed(IntTok(Atoi(src[i..j])), j - i));
    } else if IsIdentStart(c) {
      var j := ScanIdent(src, i);
      assert here[..j - i] == src[i..j];
      return Ok(Lexed(WordToken(src[i..j]), j - i));
    }
    return Err(UnexpectedChar);
  }

  method Lex(src: string) returns (r: Tokens)
    ensures r == LexSpec(src)
  {
    hide LexSpec, Scan;
    var toks: seq<Token> := [];
    var i := 0;
    assert src[0..] == src;
    assert LexSpec(src).Ok? ==> toks + LexSpec(src).value == LexSpec(src).value;
    while i < |src|
      invariant 0 <= i <= |src|
      invariant LexSpec(src) == Prepend(toks, LexSpec(src[i..]))
    {
      ghost var here := src[i..];
      if IsSpace(src[i]) {
        assert here[1..] == src[i + 1..];
        SpaceStep(here);
        i := i + 1;
      } else {
        var lexed := ScanToken(src, i);
        if lexed.Err? {
          ErrorStep(here);
          assert LexSpec(src) == Err(lexed.error);
          return Err(lexed.error);
        }
        var Lexed(tok, len) := lexed.value;
        assert here[len..] == src[i + len..];
        PrependStep(toks, tok, here, src[i + len..], len);
        toks := toks + [tok];
        i := i + len;
      }
    }
    assert src[i..] == "";
    EndStep();
    return Ok(toks + [Eof]);
  }

  lemma SpaceStep(s: string)
    requires s != "" && IsSpace(s[0])
    ensures LexSpec(s) == LexSpec(s[1..])
  {
  }

  lemma ErrorStep(s: string)
    requires s != "" && !IsSpace(s[0]) && Scan(s).Err?
    ensures LexSpec(s) == Err(Scan(s).error)
  {
  }

  lemma EndStep()
    ensures LexSpec("") == Ok([Eof])
  {
  }

  lemma PrependStep(toks: seq<Token>, tok: Token, s: string, rest: string, len: nat)
    requires s != "" && !IsSpace(s[0]) && Scan(s) == Ok(Lexed(tok, len)) && len <= |s| && rest == s[len..]
    ensures Prepend(toks, LexSpec(s)) == Prepend(toks + [tok], LexSpec(rest))
  {
    var tail := LexSpec(rest);
    if tail.Ok? {
      assert toks + ([tok] + tail.value) == (toks + [tok]) + tail.value;
    }
  }

  // ------------------------------------------------------------------ what the tokens of a text are

  lemma {:induction false} DigitRunOf(s: string, rest: string)
    requires (forall c | c in s :: IsDigit(c)) && (rest == "" || !IsDigit(rest[0]))
    ensures DigitRun(s + rest) == |s|
  {
    if s == "" {
      assert s + rest == rest;
    } else {
      assert s[0] in s && (s + rest)[1..] == s[1..] + rest;
      DigitRunOf(s[1..], rest);
    }
  }

  lemma {:induction false} IdentRunOf(s: string, rest: string)
    requires (forall c | c in s :: IsIdentPart(c)) && (rest == "" || !IsIdentPart(rest[0]))
    ensures IdentRun(s + rest) == |s|
  {
    if s == "" {
      assert s + rest == rest;
    } else {
      assert s[0] in s && (s + rest)[1..] == s[1..] + rest;
      IdentRunOf(s[1..], rest);
    }
  }

  /** One scanned token in front of the rest. */
  lemma OneToken(s: string, tok: Token, rest: string)
    requires s != "" && !IsSpace(s[0]) && Scan(s + rest) == Ok(Lexed(tok, |s|))
    ensures LexSpec(s + rest) == Prepend([tok], LexSpec(rest))
  {
    assert (s + rest)[|s|..] == rest;
  }

  /** Space, tab, line feed and carriage return before anything are skipped. */
  lemma BlanksAreSkipped(c: char, rest: string)
    requires c as int in {9, 10, 13, 32}
    ensures LexSpec([c] + rest) == LexSpec(rest)
  {
    assert ([c] + rest)[1..] == rest;
  }

  lemma {:induction false} PlainBody(s: string, quote: char, rest: string)
    requires quote !in s && '\\' !in s
    ensures StringBody(s + ([quote] + rest), quote) == Some(Body(s, |s|))
  {
    var whole := s + ([quote] + rest);
    if s == "" {
      assert whole == [quote] + rest;
    } else {
      assert whole[0] == s[0] && s[0] in s && whole[1..] == s[1..] + ([quote] + rest);
      PlainBody(s[1..], quote, rest);
      assert [s[0]] + s[1..] == s;
    }
  }

  /** A backslash keeps the character after it, whatever that is, and goes itself. */
  lemma BackslashKeepsNext(c: char, tail: string, quote: char)
    requires quote != '\\' && StringBody(tail, quote).Some?
    ensures var body := StringBody(tail, quote).value;
            StringBody(['\\', c] + tail, quote) == Some(Body([c] + body.text, body.len + 2))
  {
    var whole := ['\\', c] + tail;
    assert whole[1] == c && whole[2..] == tail;
  }

  /** Single and double quotes alike enclose a string. */
  lemma QuotedString(s: string, quote: char, rest: string)
    requires quote in {'"', '\''} && quote !in s && '\\' !in s
    ensures LexSpec([quote] + s + [quote] + rest) == Prepend([StrTok(s)], LexSpec(rest))
  {
    hide StringBody, LexSpec;
    PlainBody(s, quote, rest);
    var text := [quote] + s + [quote];
    assert (text + rest)[1..] == s + ([quote] + rest);
    OneToken(text, StrTok(s), rest);
  }

  /** One that is not closed is an error. */
  lemma {:induction false} UnclosedBody(s: string, quote: char)
    requires quote !in s
    ensures StringBody(s, quote).None?
  {
    if s != "" {
      assert s[0] in s;
      UnclosedBody(s[(if Escapes(s) then 1 else 0) + 1..], quote);
    }
  }

  lemma UnclosedString(s: string, quote: char)
    requires quote in {'"', '\''} && quote !in s
    ensures LexSpec([quote] + s) == Err(UnterminatedString)
  {
    UnclosedBody(s, quote);
    assert ([quote] + s)[1..] == s;
  }

  predicate EndsWord(rest: string) {
    rest == "" || !(rest[0] == '_' || '0' <= rest[0] <= '9' || 'a' <= rest[0] <= 'z' || 'A' <= rest[0] <= 'Z')
  }

  /** Digits are a number, the largest 64-bit one if they are more than that. */
  lemma DigitsAreANumber(s: string, rest: string)
    requires s != "" && (forall c | c in s :: '0' <= c <= '9') && EndsWord(rest)
    ensures LexSpec(s + rest)
            == Prepend([IntTok(if DecValue(s) <= 9223372036854775807 then DecValue(s) else 9223372036854775807)],
                       LexSpec(rest))
  {
    assert s[0] in s;
    DigitRunOf(s, rest);
    assert (s + rest)[..|s|] == s;
    OneToken(s, IntTok(Atoi(s)), rest);
  }

  /** A letter or underscore, with letters, digits and underscores after it, is a word: true, false or
      a name. */
  lemma LettersAreAWord(s: string, rest: string)
    requires s != "" && !('0' <= s[0] <= '9') && EndsWord(rest)
    requires forall c | c in s :: c == '_' || '0' <= c <= '9' || 'a' <= c <= 'z' || 'A' <= c <= 'Z'
    ensures LexSpec(s + rest)
            == Prepend([if s == "true" then BoolTok(true) else if s == "false" then BoolTok(false) else IdentTok(s)],
                       LexSpec(rest))
  {
    assert s[0] in s;
    IdentRunOf(s, rest);
    assert (s + rest)[..|s|] == s;
    OneToken(s, WordToken(s), rest);
  }

  /** A lone &, | or = is an error, and so is any character that begins no token. */
  lemma StrayCharacter(c: char, rest: string)
    requires c in {'&', '|', '='} ==> rest == "" || rest[0] != c
    requires c as int !in {9, 10, 13, 32} && c !in {'(', ')', '"', '\'', '!', '<', '>', '_'}
    requires !('0' <= c <= '9') && !('a' <= c <= 'z') && !('A' <= c <= 'Z')
    ensures LexSpec([c] + rest) == Err(UnexpectedChar)
  {
    assert rest != "" ==> ([c] + rest)[1] == rest[0];
  }
}
