/** Printed configurations as text, and the round trip through lexer and parser. */
module Rendering {
  import opened Options
  import opened Order
  import opened Lexing
  import Parser
  import Parsing
  import Printing

  /** The characters that separate tokens or start special ones are neither letters nor digits, and a blank ends a word. */
  ghost predicate Separators(u: Classes) {
    u.space(' ') && forall c :: c in {' ', '\t', '\n', '"', '#', '!'} ==> !u.letter(c) && !u.digit(c)
  }

  predicate WordText(u: Classes, w: string) {
    forall k :: 0 <= k < |w| ==> IdentifierChar(u, w[k])
  }

  predicate QuotedText(w: string) {
    forall k :: 0 <= k < |w| ==> w[k] != '"' && w[k] != '\n'
  }

  /** A text that needs no quotes: it starts like a path or a number and has no white space. */
  predicate BareText(u: Classes, w: string) {
    && w != "" && (w[0] == '/' || w[0] == '.' || u.digit(w[0])) && !IdentifierStart(u, w[0])
    && forall k :: 0 <= k < |w| ==> !SpaceChar(u, w[k])
  }

  /** How a token is written: the blanks before it, a string without its quotes, a newline after a comment. */
  datatype Style = Style(blanks: string, bare: bool, comment: Option<string>)

  predicate OneLine(c: string) {
    forall k :: 0 <= k < |c| ==> c[k] != '\n'
  }

  predicate Blanks(s: string) {
    forall k :: 0 <= k < |s| ==> s[k] == ' ' || s[k] == '\t'
  }

  /** The token has a spelling of its own, and the style fits it. */
  predicate Renderable(u: Classes, t: Token, style: Style) {
    && Blanks(style.blanks)
    && match t.kind
       case Newline => t.text == "\n" && (style.comment.Some? ==> OneLine(style.comment.value))
       case Str => if style.bare then BareText(u, t.text) else QuotedText(t.text)
       case Eof => false
       case Error => false
       case _ =>
         && t.text != "" && Keyword(t.text) == t.kind
         && if t.text[0] == '!' then WordText(u, t.text[1..]) else IdentifierStart(u, t.text[0]) && WordText(u, t.text)
  }

  /** The characters of a token, without the blanks before it. */
  function Spelling(t: Token, style: Style): string {
    match t.kind
    case Newline => (if style.comment.Some? then "#" + style.comment.value else "") + "\n"
    case Str => if style.bare then t.text + " " else "\"" + t.text + "\" "
    case _ => t.text + " "
  }

  function Render(tokens: seq<Token>, styles: seq<Style>): string
    requires |tokens| == |styles|
  {
    if tokens == [] then "" else styles[0].blanks + Spelling(tokens[0], styles[0]) + Render(tokens[1..], styles[1..])
  }

  lemma {:induction false} SpanOfWord(u: Classes, w: string, s: string)
    requires Separators(u) && WordText(u, w)
    ensures IdentifierSpan(u, w + (" " + s)) == |w|
    decreases |w|
  {
    if w == "" {
      assert w + (" " + s) == " " + s;
    } else {
      assert (w + (" " + s))[1..] == w[1..] + (" " + s);
      SpanOfWord(u, w[1..], s);
    }
  }

  lemma {:induction false} SpanOfQuoted(w: string, s: string)
    requires QuotedText(w)
    ensures QuotedSpan(w + ("\" " + s)) == |w|
    decreases |w|
  {
    if w == "" {
      assert w + ("\" " + s) == "\" " + s;
    } else {
      assert (w + ("\" " + s))[1..] == w[1..] + ("\" " + s);
      SpanOfQuoted(w[1..], s);
    }
  }

  lemma {:induction false} SpanOfBare(u: Classes, w: string, s: string)
    requires Separators(u) && forall k :: 0 <= k < |w| ==> !SpaceChar(u, w[k])
    ensures WordSpan(u, w + (" " + s)) == |w|
    decreases |w|
  {
    if w == "" {
      assert w + (" " + s) == " " + s;
    } else {
      assert (w + (" " + s))[1..] == w[1..] + (" " + s);
      SpanOfBare(u, w[1..], s);
    }
  }

  /** Blanks before a text are skipped. */
  lemma {:induction false} BlanksSkipped(u: Classes, blanks: string, s: string)
    requires Blanks(blanks)
    ensures Next(u, blanks + s) == Next(u, s)
    decreases |blanks|
  {
    hide LexemeAt;
    if blanks == "" {
      assert blanks + s == s;
    } else {
      assert (blanks + s)[1..] == blanks[1..] + s;
      BlanksSkipped(u, blanks[1..], s);
    }
  }

  lemma {:induction false} WordReads(u: Classes, t: Token, style: Style, s: string)
    requires Sound(u) && Separators(u) && Renderable(u, t, style) && t.kind !in {Newline, Str}
    ensures Next(u, Spelling(t, style) + s) == Lexeme(t, " " + s)
  {
    hide Keyword, IdentifierChar;
    var w := t.text;
    var r := Spelling(t, style) + s;
    assert r == w + (" " + s) && r[0] == w[0];
    if w[0] == '!' {
      var v := w[1..];
      SpanOfWord(u, v, s);
      assert r[1..] == v + (" " + s);
      assert (v + (" " + s))[..|v|] == v && (v + (" " + s))[|v|..] == " " + s && "!" + v == w;
    } else {
      SpanOfWord(u, w, s);
      assert r[..|w|] == w && r[|w|..] == " " + s;
    }
  }

  /** A text without a blank or a comment in front. */
  lemma {:induction false} NextAt(u: Classes, r: string)
    requires r != "" && r[0] != ' ' && r[0] != '\t' && r[0] != '#'
    ensures Next(u, r) == LexemeAt(u, r)
  {
    hide LexemeAt;
  }

  lemma {:induction false} NextAfterComment(u: Classes, c: string, s: string)
    requires OneLine(c)
    ensures Next(u, "#" + (c + ("\n" + s))) == LexemeAt(u, "\n" + s)
  {
    hide LexemeAt;
    var r := "#" + (c + ("\n" + s));
    assert r[0] == '#' && r[1..] == c + ("\n" + s);
    CommentSkipped(c, s);
  }

  lemma {:induction false} QuotedSpelling(w: string, s: string)
    requires QuotedText(w)
    ensures Quoted(w + ("\" " + s)) == Lexeme(Token(Str, w), " " + s)
  {
    var q := w + ("\" " + s);
    SpanOfQuoted(w, s);
    assert q[..|w|] == w && q[|w|] == '"' && q[|w| + 1..] == " " + s;
  }

  lemma {:induction false} QuotedReads(u: Classes, t: Token, style: Style, s: string)
    requires Sound(u) && Separators(u) && Renderable(u, t, style) && t.kind == Str && !style.bare
    ensures Next(u, Spelling(t, style) + s) == Lexeme(t, " " + s)
  {
    hide Next, Quoted, Word, Negated, Bare;
    var r := Spelling(t, style) + s;
    QuotedSpelling(t.text, s);
    assert r[0] == '"' && r[1..] == t.text + ("\" " + s);
    NextAt(u, r);
  }

  lemma {:induction false} BareReads(u: Classes, t: Token, style: Style, s: string)
    requires Sound(u) && Separators(u) && Renderable(u, t, style) && t.kind == Str && style.bare
    ensures Next(u, Spelling(t, style) + s) == Lexeme(t, " " + s)
  {
    hide Keyword;
    var w := t.text;
    var r := Spelling(t, style) + s;
    assert r == w + (" " + s) && r[0] == w[0];
    SpanOfBare(u, w, s);
    assert r[..|w|] == w && r[|w|..] == " " + s;
  }

  lemma {:induction false} CommentSkipped(c: string, s: string)
    requires OneLine(c)
    ensures SkipLine(c + ("\n" + s)) == "\n" + s
    decreases |c|
  {
    if c == "" {
      assert c + ("\n" + s) == "\n" + s;
    } else {
      assert (c + ("\n" + s))[1..] == c[1..] + ("\n" + s);
      CommentSkipped(c[1..], s);
    }
  }

  lemma {:induction false} Regroup(a: string, b: string, c: string, d: string)
    ensures a + b + c + d == a + (b + (c + d))
  {}

  lemma {:induction false} NewlineFirst(u: Classes, s: string)
    ensures LexemeAt(u, "\n" + s) == Lexeme(Token(Newline, "\n"), s) && ("\n" + s)[0] == '\n'
  {
    hide Quoted, Word, Negated, Bare;
    assert ("\n" + s)[1..] == s;
  }

  /** A comment is nothing but its newline. */
  lemma {:induction false} NewlineReads(u: Classes, t: Token, style: Style, s: string)
    requires Renderable(u, t, style) && t.kind == Newline
    ensures Next(u, Spelling(t, style) + s) == Lexeme(t, s)
  {
    hide Next, LexemeAt;
    var r, line := Spelling(t, style) + s, "\n" + s;
    NewlineFirst(u, s);
    if style.comment.Some? {
      Regroup("#", style.comment.value, "\n", s);
      NextAfterComment(u, style.comment.value, s);
    } else {
      assert "" + "\n" == "\n";
      NextAt(u, line);
    }
  }

  lemma {:induction false} NextDecides(u: Classes, a: string, b: string)
    requires Sound(u) && Next(u, a) == Next(u, b)
    ensures Tokens(u, a) == Tokens(u, b)
  {
    hide Next;
  }

  /** The lexer reads a rendered text back as its tokens, whatever the blanks, the comments and the bare words. */
  lemma {:induction false} RenderedTokens(u: Classes, tokens: seq<Token>, styles: seq<Style>)
    requires Sound(u) && Separators(u) && |tokens| == |styles|
    requires forall k :: 0 <= k < |tokens| ==> Renderable(u, tokens[k], styles[k])
    ensures Tokens(u, Render(tokens, styles)) == tokens + [Token(Eof, "")]
    decreases |tokens|
  {
    hide Next, Renderable, Spelling;
    if tokens == [] {
      NothingLeft(u);
    } else {
      var t, rest := tokens[0], Render(tokens[1..], styles[1..]);
      RenderedTokens(u, tokens[1..], styles[1..]);
      OneToken(u, t, styles[0], rest);
      assert styles[0].blanks + Spelling(t, styles[0]) + rest == styles[0].blanks + (Spelling(t, styles[0]) + rest);
      assert tokens + [Token(Eof, "")] == [t] + (tokens[1..] + [Token(Eof, "")]);
    }
  }

  lemma {:induction false} NothingLeft(u: Classes)
    requires Sound(u)
    ensures Tokens(u, "") == [Token(Eof, "")]
  {}

  lemma {:induction false} OneToken(u: Classes, t: Token, style: Style, s: string)
    requires Sound(u) && Separators(u) && Renderable(u, t, style)
    ensures Tokens(u, style.blanks + (Spelling(t, style) + s)) == [t] + Tokens(u, s)
  {
    hide Next, Spelling, Separators, Tokens;
    RenderableIsNoEnd(u, t, style);
    BlanksSkipped(u, style.blanks, Spelling(t, style) + s);
    NextDecides(u, style.blanks + (Spelling(t, style) + s), Spelling(t, style) + s);
    if t.kind == Newline {
      NewlineReads(u, t, style, s);
      FirstToken(u, Spelling(t, style) + s, t, s);
    } else {
      if t.kind != Str {
        WordReads(u, t, style, s);
      } else if style.bare {
        BareReads(u, t, style, s);
      } else {
        QuotedReads(u, t, style, s);
      }
      FirstToken(u, Spelling(t, style) + s, t, " " + s);
      BlanksSkipped(u, " ", s);
      NextDecides(u, " " + s, s);
    }
  }

  lemma {:induction false} FirstToken(u: Classes, s: string, t: Token, rest: string)
    requires Sound(u) && Next(u, s) == Lexeme(t, rest) && !IsEnd(t)
    ensures Tokens(u, s) == [t] + Tokens(u, rest)
  {
    hide Next;
  }

  lemma {:induction false} RenderableIsNoEnd(u: Classes, t: Token, style: Style)
    requires Renderable(u, t, style)
    ensures !IsEnd(t) && Blanks(style.blanks)
  {}

  /////////// The round trip ///////////

  /** The printed form of a configuration. */
  function Printed(c: Parsing.Config): seq<Token> {
    Printing.Print(c, SortedKeys(c.Keys), [])
  }

  /** The configuration can be written in these styles. */
  ghost predicate HasText(u: Classes, c: Parsing.Config, styles: seq<Style>) {
    && (forall sn :: sn in c ==> Printing.Printable(c[sn]))
    && |styles| == |Printed(c)| && (forall k :: 0 <= k < |Printed(c)| ==> Renderable(u, Printed(c)[k], styles[k]))
  }

  lemma {:induction false} PrintedParses(u: Classes, c: Parsing.Config, styles: seq<Style>)
    requires Sound(u) && Separators(u) && HasText(u, c, styles)
    ensures Tokens(u, Render(Printed(c), styles)) == Printed(c) + [Token(Eof, "")]
    ensures Parsing.File(Tokens(u, Render(Printed(c), styles)), map[], []) == (c, [])
  {
    hide Tokens, Render, Renderable, Parsing.File, Printing.Print, Printing.Over, SortedKeys, Printing.Printable;
    var end := [Token(Eof, "")];
    RenderedTokens(u, Printed(c), styles);
    Printing.OverAll(c);
    Printing.PrintThen(c, SortedKeys(c.Keys), end);
    Printing.PrintedFileParses(c, SortedKeys(c.Keys), end, map[], []);
  }

  lemma {:induction false} PrintedIsText(c: Parsing.Config, styles: seq<Style>)
    requires c != map[] && |styles| == |Printed(c)|
    ensures Render(Printed(c), styles) != ""
  {
    hide Printing.Print, Render, SortedKeys;
    assert exists sn :: sn in c;
    var sn :| sn in c;
    assert sn in SortedKeys(c.Keys);
    PrintedStarts(c, SortedKeys(c.Keys));
    RenderStarts(Printed(c), styles);
  }

  lemma {:induction false} RenderStarts(tokens: seq<Token>, styles: seq<Style>)
    requires tokens != [] && |tokens| == |styles|
    ensures Render(tokens, styles) != ""
  {
    hide Render;
    assert Spelling(tokens[0], styles[0]) != "";
    RenderSteps(tokens, styles);
  }

  lemma {:induction false} RenderSteps(tokens: seq<Token>, styles: seq<Style>)
    requires tokens != [] && |tokens| == |styles|
    ensures |Render(tokens, styles)| >= |Spelling(tokens[0], styles[0])|
  {
    hide Spelling;
  }

  lemma {:induction false} PrintedStarts(c: Parsing.Config, names: seq<string>)
    requires Printing.Listed(names, c) && names != []
    ensures Printing.Print(c, names, []) != []
  {
    hide Printing.PlainLines, Printing.BlocksTokens, Printing.Idents, SortedKeys;
    Printing.ListedTail(names, c);
  }

  /** Parsing a text of a configuration, in whatever style it is written, gives the configuration back. */
  method PrintAndParse(u: Classes, c: Parsing.Config, styles: seq<Style>) returns (config: Parsing.Config, failed: bool)
    requires Sound(u) && Separators(u) && HasText(u, c, styles) && c != map[]
    ensures !failed && config == c
  {
    hide Tokens, Render, Printed, Parsing.File, Renderable, Printing.Printable;
    PrintedParses(u, c, styles);
    PrintedIsText(c, styles);
    config, failed := Parser.ParseString(u, Render(Printed(c), styles));
  }
}
