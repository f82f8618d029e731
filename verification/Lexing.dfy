/** The tokens of a configuration file, and the lexer that reads them character by character. */
module Lexing {

  datatype Kind =
    | SectionKw | RewriteKw | VarKw | LocalKw | ServiceKw | PostconfKw | PostconfdKw | RestartKw | DependsKw
    | MapfileKw | MaplocalKw | ModeKw | FileKw | IfKw | FiKw | ProxygenKw
    | Identifier | Str | Newline | Eof | Error

  datatype Token = Token(kind: Kind, text: string)

  predicate IsEnd(t: Token) {
    t.kind == Eof || t.kind == Error
  }

  /** The character classes of the standard library. */
  datatype Classes = Classes(letter: char -> bool, digit: char -> bool, space: char -> bool)

  ghost predicate Sound(u: Classes) {
    && !u.letter('\0') && !u.digit('\0')
    && !u.space('/') && !u.space('.')
    && forall c :: u.digit(c) ==> !u.space(c)
  }

  predicate IdentifierStart(u: Classes, c: char) {
    u.letter(c) || c == '_'
  }

  predicate IdentifierChar(u: Classes, c: char) {
    u.letter(c) || u.digit(c) || c == '_' || c == '-' || c == ','
  }

  predicate SpaceChar(u: Classes, c: char) {
    u.space(c)
  }

  function Upper(s: string): string {
    if s == "" then ""
    else [if 'a' <= s[0] <= 'z' then s[0] - 'a' + 'A' else s[0]] + Upper(s[1..])
  }

  const KEYWORDS: map<string, Kind> := map[
    "SECTION" := SectionKw, "REWRITE" := RewriteKw, "VAR" := VarKw, "LOCAL" := LocalKw, "SERVICE" := ServiceKw,
    "POSTCONF" := PostconfKw, "POSTCONFD" := PostconfdKw, "RESTART" := RestartKw, "DEPENDS" := DependsKw,
    "MAPFILE" := MapfileKw, "MAPLOCAL" := MaplocalKw, "MODE" := ModeKw, "FILE" := FileKw, "IF" := IfKw,
    "FI" := FiKw, "PROXYGEN" := ProxygenKw]

  /** Keywords in any case; every other word is an identifier. */
  function Keyword(word: string): Kind {
    if Upper(word) in KEYWORDS then KEYWORDS[Upper(word)] else Identifier
  }

  /////////// What the next token of a text is ///////////

  function SkipBlank(s: string): string {
    if s != "" && (s[0] == ' ' || s[0] == '\t') then SkipBlank(s[1..]) else s
  }

  function SkipLine(s: string): string {
    if s != "" && s[0] != '\n' then SkipLine(s[1..]) else s
  }

  function IdentifierSpan(u: Classes, s: string): (n: nat)
    ensures n <= |s|
  {
    if s != "" && IdentifierChar(u, s[0]) then 1 + IdentifierSpan(u, s[1..]) else 0
  }

  function WordSpan(u: Classes, s: string): (n: nat)
    ensures n <= |s|
  {
    if s != "" && !SpaceChar(u, s[0]) then 1 + WordSpan(u, s[1..]) else 0
  }

  function QuotedSpan(s: string): (n: nat)
    ensures n <= |s|
  {
    if s != "" && s[0] != '"' && s[0] != '\n' then 1 + QuotedSpan(s[1..]) else 0
  }

  /** A token and the text after it. */
  datatype Lexeme = Lexeme(token: Token, rest: string)

  function Word(u: Classes, s: string): Lexeme {
    var n := IdentifierSpan(u, s);
    Lexeme(Token(Keyword(s[..n]), s[..n]), s[n..])
  }

  /** A word after '!': the mark is part of it, so it is never a keyword. */
  function Negated(u: Classes, s: string): Lexeme {
    var n := IdentifierSpan(u, s);
    Lexeme(Token(Keyword("!" + s[..n]), "!" + s[..n]), s[n..])
  }

  function Quoted(s: string): Lexeme {
    var n := QuotedSpan(s);
    Lexeme(Token(Str, s[..n]), if n < |s| && s[n] == '"' then s[n + 1..] else s[n..])
  }

  function Bare(u: Classes, s: string): Lexeme {
    var n := WordSpan(u, s);
    Lexeme(Token(Str, s[..n]), s[n..])
  }

  lemma {:induction false} SkipBlankShorter(s: string)
    ensures |SkipBlank(s)| <= |s|
  {
    if s != "" { SkipBlankShorter(s[1..]); }
  }

  lemma {:induction false} SkipLineShorter(s: string)
    ensures |SkipLine(s)| <= |s|
    ensures SkipLine(s) != "" ==> SkipLine(s)[0] == '\n'
  {
    if s != "" { SkipLineShorter(s[1..]); }
  }

  /** The token at a text without leading blanks or comments. */
  function LexemeAt(u: Classes, s: string): Lexeme {
    if s == "" then Lexeme(Token(Eof, ""), "")
    else if s[0] == '\n' then Lexeme(Token(Newline, "\n"), s[1..])
    else if s[0] == '!' then Negated(u, s[1..])
    else if IdentifierStart(u, s[0]) then Word(u, s)
    else if s[0] == '"' then Quoted(s[1..])
    else if s[0] == '/' || s[0] == '.' || u.digit(s[0]) then Bare(u, s)
    else Lexeme(Token(Error, ""), s[1..])
  }

  /** The next token. A comment ends with its line, so the newline after it is the next token. */
  function Next(u: Classes, s: string): Lexeme {
    var t := SkipBlank(s);
    LexemeAt(u, if t != "" && t[0] == '#' then SkipLine(t) else t)
  }

  lemma {:induction false} WordIsNoEnd(word: string)
    ensures Keyword(word) != Eof && Keyword(word) != Error && Keyword(word) != Newline
  {
    assert forall w :: w in KEYWORDS ==> KEYWORDS[w] != Eof && KEYWORDS[w] != Error && KEYWORDS[w] != Newline;
  }

  /** Every token but the end of the text takes at least one character. */
  lemma {:induction false} TokenConsumes(u: Classes, s: string)
    requires Sound(u)
    ensures Next(u, s).token.kind != Eof ==> |Next(u, s).rest| < |s|
    ensures |Next(u, s).rest| <= |s|
  {
    hide Keyword;
    SkipBlankShorter(s);
    SkipLineShorter(SkipBlank(s));
    var t := SkipBlank(s);
    var at := if t != "" && t[0] == '#' then SkipLine(t) else t;
    LexemeConsumes(u, at);
  }

  lemma {:induction false} LexemeConsumes(u: Classes, s: string)
    requires Sound(u)
    ensures LexemeAt(u, s).token.kind != Eof ==> |LexemeAt(u, s).rest| < |s|
    ensures |LexemeAt(u, s).rest| <= |s|
  {
    hide Keyword;
  }

  /** The tokens of a text up to its end or its first character that starts no token. */
  function Tokens(u: Classes, s: string): seq<Token>
    requires Sound(u)
    decreases |s|
  {
    TokenConsumes(u, s);
    var l := Next(u, s);
    if IsEnd(l.token) then [l.token] else [l.token] + Tokens(u, l.rest)
  }

  /** No text gives more tokens than it has characters, and its end. */
  lemma {:induction false} TokensBounded(u: Classes, s: string)
    requires Sound(u)
    ensures 1 <= |Tokens(u, s)| <= |s| + 1
    decreases |s|
  {
    hide Next;
    TokenConsumes(u, s);
    if !IsEnd(Next(u, s).token) { TokensBounded(u, Next(u, s).rest); }
  }

  /////////// The lexer ///////////

  class Lexer {
    const u: Classes
    const content: string
    var pos: nat
    var current: char
    var eof: bool

    ghost predicate Valid()
      reads this
    {
      Sound(u) && pos <= |content| && (eof ==> current == '\0')
    }

    /** The text that is not consumed yet. */
    ghost function Left(): (s: string)
      requires Valid()
      reads this
      ensures eof <==> s == ""
      ensures !eof ==> s[0] == current
    {
      if eof then "" else [current] + content[pos..]
    }

    constructor (u: Classes, content: string)
      requires Sound(u)
      ensures Valid() && this.u == u && Left() == content
    {
      this.u, this.content := u, content;
      if |content| == 0 {
        pos, current, eof := 0, '\0', true;
      } else {
        pos, current, eof := 1, content[0], false;
      }
    }

    method ReadChar()
      requires Valid()
      modifies this
      ensures Valid() && Left() == (if old(Left()) == "" then "" else old(Left())[1..])
    {
      if eof { return; }
      if pos == |content| {
        eof, current := true, '\0';
      } else {
        current, pos := content[pos], pos + 1;
      }
    }

    method SkipWhitespace()
      requires Valid()
      modifies this
      ensures Valid() && Left() == SkipBlank(old(Left()))
    {
      hide Left, Sound;
      while current == ' ' || current == '\t'
        invariant Valid() && SkipBlank(Left()) == SkipBlank(old(Left()))
        decreases |Left()|
      {
        ReadChar();
      }
    }

    method SkipComment()
      requires Valid()
      modifies this
      ensures Valid() && Left() == SkipLine(old(Left()))
    {
      hide Left, Sound;
      while current != '\n' && !eof
        invariant Valid() && SkipLine(Left()) == SkipLine(old(Left()))
        decreases |Left()|
      {
        ReadChar();
      }
    }

    method ReadIdentifier() returns (word: string)
      requires Valid()
      modifies this
      ensures Valid()
      ensures var n := IdentifierSpan(u, old(Left())); word == old(Left())[..n] && Left() == old(Left())[n..]
    {
      hide Left;
      word := "";
      while IdentifierChar(u, current)
        invariant Valid() && word + Left() == old(Left())
        invariant IdentifierSpan(u, old(Left())) == |word| + IdentifierSpan(u, Left())
        decreases |Left()|
      {
        word := word + [current];
        ReadChar();
      }
    }

    method ReadQuoted() returns (text: string)
      requires Valid()
      modifies this
      ensures Valid() && Lexeme(Token(Str, text), Left()) == Quoted(old(Left()))
    {
      hide Left, Sound;
      text := "";
      while current != '"' && !eof && current != '\n'
        invariant Valid() && text + Left() == old(Left())
        invariant QuotedSpan(old(Left())) == |text| + QuotedSpan(Left())
        decreases |Left()|
      {
        text := text + [current];
        ReadChar();
      }
      if current == '"' { ReadChar(); }
    }

    method ReadBare() returns (text: string)
      requires Valid()
      modifies this
      ensures Valid()
      ensures var n := WordSpan(u, old(Left())); text == old(Left())[..n] && Left() == old(Left())[n..]
    {
      hide Left, SpaceChar, Sound;
      text := "";
      ghost var all := Left();
      while !SpaceChar(u, current) && !eof
        invariant Valid() && text + Left() == all
        invariant WordSpan(u, all) == |text| + WordSpan(u, Left())
        decreases |Left()|
      {
        assert Left()[0] == current;
        text := text + [current];
        ReadChar();
      }
      assert WordSpan(u, Left()) == 0;
    }

    /** `NextToken`; `ok` is false for a character that starts no token. */
    method NextToken() returns (token: Token, ok: bool)
      requires Valid()
      modifies this
      ensures Valid() && Lexeme(token, Left()) == Next(u, old(Left()))
      ensures ok <==> token.kind != Error
    {
      hide Keyword, Left, Sound, LexemeAt;
      SkipWhitespace();
      if !eof && current == '#' { SkipComment(); }
      token, ok := TokenHere();
    }

    method TokenHere() returns (token: Token, ok: bool)
      requires Valid()
      modifies this
      ensures Valid() && Lexeme(token, Left()) == LexemeAt(u, old(Left()))
      ensures ok <==> token.kind != Error
    {
      hide Keyword, Left, Sound;
      if eof { return Token(Eof, ""), true; }
      if current == '\n' {
        ReadChar();
        return Token(Newline, "\n"), true;
      }
      if IdentifierStart(u, current) || current == '!' {
        var negated := current == '!';
        if negated { ReadChar(); }
        var word := ReadIdentifier();
        if negated { word := "!" + word; }
        WordIsNoEnd(word);
        return Token(Keyword(word), word), true;
      }
      if current == '"' {
        ReadChar();
        var text := ReadQuoted();
        return Token(Str, text), true;
      }
      if current == '/' || u.digit(current) || current == '.' {
        var text := ReadBare();
        return Token(Str, text), true;
      }
      ReadChar();
      return Token(Error, ""), false;
    }
  }
}
