/** A printer for parsed configurations, and the proof that the grammar reads back what it prints. */
module Printing {
  import opened Options
  import opened Order
  import opened Lexing
  import opened Parsing
  import opened ParsingFacts
  import opened Lines
  import Planner

  /////////// Tokens ///////////

  function Name(kind: Kind): string {
    match kind
    case SectionKw => "SECTION"
    case RewriteKw => "REWRITE"
    case VarKw => "VAR"
    case LocalKw => "LOCAL"
    case ServiceKw => "SERVICE"
    case PostconfKw => "POSTCONF"
    case PostconfdKw => "POSTCONFD"
    case RestartKw => "RESTART"
    case DependsKw => "DEPENDS"
    case MapfileKw => "MAPFILE"
    case MaplocalKw => "MAPLOCAL"
    case ModeKw => "MODE"
    case FileKw => "FILE"
    case IfKw => "IF"
    case FiKw => "FI"
    case ProxygenKw => "PROXYGEN"
    case _ => ""
  }

  function UpperChar(c: char): char {
    if 'a' <= c <= 'z' then c - 'a' + 'A' else c
  }

  /** The same letters, apart from their case. */
  ghost predicate SpellsName(w: string, kind: Kind) {
    |w| == |Name(kind)| && forall k :: 0 <= k < |w| ==> UpperChar(w[k]) == Name(kind)[k]
  }

  lemma {:induction false} UpperMeans(w: string)
    ensures |Upper(w)| == |w| && forall k :: 0 <= k < |w| ==> Upper(w)[k] == UpperChar(w[k])
  {
    if w != "" { UpperMeans(w[1..]); }
  }

  predicate IsKeywordKind(kind: Kind) {
    kind !in {Identifier, Str, Newline, Eof, Error}
  }

  lemma {:induction false} KeywordNames(kind: Kind)
    requires IsKeywordKind(kind)
    ensures Name(kind) in KEYWORDS && KEYWORDS[Name(kind)] == kind
  {}

  lemma {:induction false} NamesOfKeywords(n: string)
    requires n in KEYWORDS
    ensures IsKeywordKind(KEYWORDS[n]) && n == Name(KEYWORDS[n])
  {}

  /** A word is a keyword exactly when it spells its name, in any case; every other word is an identifier. */
  lemma {:induction false} KeywordMeans(w: string, kind: Kind)
    requires IsKeywordKind(kind)
    ensures Keyword(w) == kind <==> SpellsName(w, kind)
    ensures Keyword(w) == Identifier || IsKeywordKind(Keyword(w))
  {
    hide KEYWORDS, Name, Upper;
    UpperMeans(w);
    KeywordNames(kind);
    if Upper(w) in KEYWORDS { NamesOfKeywords(Upper(w)); }
    assert SpellsName(w, kind) <==> Upper(w) == Name(kind);
  }

  function Kw(kind: Kind): Token {
    Token(kind, Name(kind))
  }

  function Ident(text: string): Token {
    Token(Identifier, text)
  }

  function Quote(text: string): Token {
    Token(Str, text)
  }

  function Idents(words: seq<string>): Tokens {
    if words == [] then [] else [Ident(words[0])] + Idents(words[1..])
  }

  lemma {:induction false} IdentsAreLine(words: seq<string>)
    ensures IsLine(Idents(words))
  {
    if words != [] { IdentsAreLine(words[1..]); }
  }

  lemma {:induction false} WordsOfIdents(words: seq<string>, t: Tokens)
    requires Cur(t).kind != Identifier
    ensures Words(Idents(words) + t) == Got((set w | w in words), t)
    decreases |words|
  {
    if words == [] {
      NothingBefore(t);
      assert (set w | w in words) == {};
    } else {
      var rest := Idents(words[1..]) + t;
      assert Idents(words) + t == [Ident(words[0])] + rest;
      CurOf([Ident(words[0])], rest);
      NothingBefore(rest);
      assert words == [words[0]] + words[1..];
      assert (set w | w in words) == {words[0]} + (set w | w in words[1..]);
      WordsOfIdents(words[1..], t);
    }
  }

  /////////// Maps entered key by key ///////////

  function Over<T>(base: map<string, T>, m: map<string, T>, keys: seq<string>): map<string, T>
    requires forall k :: k in keys ==> k in m
    decreases |keys|
  {
    if keys == [] then base
    else
      assert keys[0] in keys;
      Over(base[keys[0] := m[keys[0]]], m, keys[1..])
  }

  lemma {:induction false} OverAt<T>(base: map<string, T>, m: map<string, T>, keys: seq<string>, k: string)
    requires forall j :: j in keys ==> j in m
    ensures k in Over(base, m, keys) <==> k in base || k in keys
    ensures k in keys ==> Over(base, m, keys)[k] == m[k]
    ensures k in base && k !in keys ==> Over(base, m, keys)[k] == base[k]
    decreases |keys|
  {
    if keys != [] {
      assert keys == [keys[0]] + keys[1..];
      OverAt(base[keys[0] := m[keys[0]]], m, keys[1..], k);
    }
  }

  lemma {:induction false} OverAll<T>(m: map<string, T>)
    ensures forall k :: k in SortedKeys(m.Keys) <==> k in m
    ensures Over(map[], m, SortedKeys(m.Keys)) == m
  {
    hide Over;
    forall k ensures k in Over(map[], m, SortedKeys(m.Keys)) <==> k in m { OverAt(map[], m, SortedKeys(m.Keys), k); }
    forall k | k in m ensures Over(map[], m, SortedKeys(m.Keys))[k] == m[k] { OverAt(map[], m, SortedKeys(m.Keys), k); }
  }

  /////////// Values ///////////

  /** The keyword and name of a value that is a lookup. */
  function LookupOf(v: string, allow: bool): Option<(Kind, string)> {
    if HasPrefix(v, "VAR:") && |v| > 4 then Some((VarKw, v[4..]))
    else if HasPrefix(v, "LOCAL:") && |v| > 6 then Some((LocalKw, v[6..]))
    else if allow && HasPrefix(v, "MAPLOCAL:") && |v| > 9 then Some((MaplocalKw, v[9..]))
    else if HasPrefix(v, "FILE ") && |v| > 5 then Some((FileKw, v[5..]))
    else None
  }

  /** A lookup, or a text that does not start like one. */
  predicate PrintableValue(v: string, allow: bool) {
    LookupOf(v, allow).Some? || WordType(v, allow).None?
  }

  /** A literal is printed word by word, a lookup as its keyword and name. */
  function ValueTokens(v: string, allow: bool): Tokens {
    var l := LookupOf(v, allow);
    if l.Some? then [Kw(l.value.0), Quote(l.value.1)] else Quotes(Split(v))
  }

  /** The words between the blanks of a text; two blanks in a row have an empty word between them. */
  function Split(v: string): (ws: seq<string>)
    ensures ws != [] && forall k :: 0 <= k < |ws| ==> ' ' !in ws[k]
    ensures ws[0] <= v
  {
    if v == "" then [""]
    else if v[0] == ' ' then [""] + Split(v[1..])
    else
      var rest := Split(v[1..]);
      [[v[0]] + rest[0]] + rest[1..]
  }

  function Quotes(ws: seq<string>): Tokens {
    if ws == [] then [] else [Quote(ws[0])] + Quotes(ws[1..])
  }

  /** Joining the words of a text with single blanks gives the text. */
  lemma {:induction false} JoinSplit(v: string)
    ensures Join(Split(v)) == v
  {
    if v != "" {
      JoinSplit(v[1..]);
      var rest := Split(v[1..]);
      if v[0] == ' ' {
        assert ([""] + rest)[1..] == rest;
        assert "" + " " + Join(rest) == [v[0]] + v[1..];
      } else {
        var first := [v[0]] + rest[0];
        JoinFirst(v[0], rest);
        assert [v[0]] + v[1..] == v;
      }
    }
  }

  lemma {:induction false} JoinFirst(c: char, ws: seq<string>)
    requires ws != []
    ensures Join([[c] + ws[0]] + ws[1..]) == [c] + Join(ws)
  {
    var longer := [[c] + ws[0]] + ws[1..];
    assert longer[0] == [c] + ws[0] && longer[1..] == ws[1..];
    if |ws| > 1 { assert [c] + ws[0] + " " + Join(ws[1..]) == [c] + (ws[0] + " " + Join(ws[1..])); }
  }

  lemma {:induction false} PartsOfQuotes(ws: seq<string>)
    ensures Parts(Quotes(ws)) == Got(ws, [])
    decreases |ws|
  {
    if ws != [] {
      PartsOfQuotes(ws[1..]);
      var r := Quotes(ws);
      assert r[1..] == Quotes(ws[1..]);
      assert Part(r) == Got([ws[0]], Quotes(ws[1..]));
      assert [ws[0]] + ws[1..] == ws;
    }
  }

  /** A part of a value: a word, a lookup inside a longer value, or a file. */
  datatype Piece = Word(text: string) | Typed(kind: Kind, name: string) | FileAt(path: string)

  predicate PieceOk(p: Piece) {
    p.Typed? ==> p.kind in {VarKw, LocalKw, MaplocalKw}
  }

  function TokensOf(p: Piece): Tokens {
    match p
    case Word(text) => [Quote(text)]
    case Typed(kind, name) => [Kw(kind), Ident(name)]
    case FileAt(path) => [Kw(FileKw), Quote(path)]
  }

  function TextOf(p: Piece): string {
    match p
    case Word(text) => text
    case Typed(kind, name) => Name(kind) + ":" + name
    case FileAt(path) => "FILE " + path
  }

  function PieceTokens(ps: seq<Piece>): Tokens {
    if ps == [] then [] else TokensOf(ps[0]) + PieceTokens(ps[1..])
  }

  function PieceTexts(ps: seq<Piece>): seq<string> {
    if ps == [] then [] else [TextOf(ps[0])] + PieceTexts(ps[1..])
  }

  lemma {:induction false} OnePiece(p: Piece, rest: Tokens)
    requires PieceOk(p)
    ensures Part(TokensOf(p) + rest) == Got([TextOf(p)], rest)
  {
    var r := TokensOf(p) + rest;
    assert r[1..] == if p.Word? then rest else [r[1]] + rest;
    assert !p.Word? ==> r[1..][1..] == rest;
  }

  /** A value of several parts: each part keeps its form, and single blanks join them. */
  lemma {:induction false} PiecesRead(ps: seq<Piece>)
    requires forall k :: 0 <= k < |ps| ==> PieceOk(ps[k])
    ensures Parts(PieceTokens(ps)) == Got(PieceTexts(ps), []) && Value(PieceTokens(ps)) == Got(Join(PieceTexts(ps)), [])
    decreases |ps|
  {
    hide Join, TokensOf, TextOf, Part;
    if ps == [] {
      assert Part([]) == Got([], []) by { NoPiece(); }
    } else {
      PiecesRead(ps[1..]);
      OnePiece(ps[0], PieceTokens(ps[1..]));
      PieceTakes(ps[0]);
    }
  }

  lemma {:induction false} NoPiece()
    ensures Part([]) == Got([], [])
  {}

  lemma {:induction false} PieceTakes(p: Piece)
    ensures |TokensOf(p)| > 0
  {}

  function Uses1(v: string, allow: bool): seq<Planner.Lookup> {
    var l := LookupOf(v, allow);
    if l.Some? then [Planner.Lookup(Name(l.value.0), l.value.1)] else []
  }

  function First(l: seq<Planner.Lookup>): Option<Planner.Lookup> {
    if l == [] then None else Some(l[0])
  }

  /** A value with a type name and a separator in front. */
  lemma {:induction false} PrefixText(v: string, typ: string, separator: string)
    requires HasPrefix(v, typ + separator)
    ensures typ + separator + v[|typ + separator|..] == v
  {
    assert v == v[..|typ + separator|] + v[|typ + separator|..];
  }

  lemma {:induction false} LookupText(v: string, allow: bool)
    requires LookupOf(v, allow).Some?
    ensures var l := LookupOf(v, allow).value;
            l.1 != "" && FormatLookup(Name(l.0), l.1, true) == v && LookupType(Kw(l.0), allow) == Some(Name(l.0)) &&
            l.0 in {VarKw, LocalKw, MaplocalKw, FileKw} && (Name(l.0) == "FILE" <==> l.0 == FileKw)
  {
    hide WordType, HasPrefix;
    if HasPrefix(v, "VAR:") && |v| > 4 {
      assert "VAR" + ":" == "VAR:";
      PrefixText(v, "VAR", ":");
    } else if HasPrefix(v, "LOCAL:") && |v| > 6 {
      assert "LOCAL" + ":" == "LOCAL:";
      PrefixText(v, "LOCAL", ":");
    } else if allow && HasPrefix(v, "MAPLOCAL:") && |v| > 9 {
      assert "MAPLOCAL" + ":" == "MAPLOCAL:";
      PrefixText(v, "MAPLOCAL", ":");
    } else {
      assert "FILE" + " " == "FILE ";
      PrefixText(v, "FILE", " ");
    }
  }

  /** A printed value is read back, with its lookup. */
  lemma {:induction false} ValueReads(key: string, v: string, allow: bool)
    requires PrintableValue(v, allow)
    ensures LineValue(key, ValueTokens(v, allow), allow) == Good(Line(key, v, First(Uses1(v, allow))), [])
  {
    hide LookupOf, WordType, Name, FormatLookup;
    var r := ValueTokens(v, allow);
    if LookupOf(v, allow).Some? {
      LookupText(v, allow);
      assert r[1..] == [Quote(LookupOf(v, allow).value.1)] && r[1..][1..] == [];
    } else {
      WordsRead(v, allow);
      FirstWord(v, allow);
    }
  }

  /** A text printed word by word is read back. */
  lemma {:induction false} WordsRead(v: string, allow: bool)
    ensures Literal(Quotes(Split(v)), allow) == Got(v, [])
  {
    hide Parts, Join, Split;
    PartsOfQuotes(Split(v));
    JoinSplit(v);
  }

  /** The first word of a text looks like a lookup only if the text does. */
  lemma {:induction false} FirstWord(v: string, allow: bool)
    requires WordType(v, allow).None?
    ensures WordType(Split(v)[0], allow).None?
  {
    hide Split;
    assert Split(v)[0] <= v;
    forall p | HasPrefix(Split(v)[0], p) ensures HasPrefix(v, p) { assert v[..|p|] == Split(v)[0][..|p|]; }
  }

  lemma {:induction false} LiteralReads(v: string, allow: bool)
    ensures Literal([Quote(v)], allow) == Got(v, [])
  {
    PartsOfQuotes([v]);
    assert Quotes([v]) == [Quote(v)];
  }

  lemma {:induction false} ValueIsLine(v: string, allow: bool)
    ensures IsLine(ValueTokens(v, allow)) && ValueTokens(v, allow) != []
  {
    hide Split;
    if LookupOf(v, allow).Some? { LookupText(v, allow); } else { QuotesAreLine(Split(v)); }
  }

  lemma {:induction false} QuotesAreLine(ws: seq<string>)
    ensures IsLine(Quotes(ws))
  {
    if ws != [] { QuotesAreLine(ws[1..]); }
  }

  /////////// Lines ///////////

  function SetLine(key: string, v: string, allow: bool): Tokens {
    [Kw(PostconfKw), Ident(key)] + ValueTokens(v, allow)
  }

  function DropLine(key: string): Tokens {
    [Kw(PostconfdKw), Ident(key)]
  }

  lemma {:induction false} SetLineReads(key: string, v: string, allow: bool)
    requires PrintableValue(v, allow)
    ensures IsLine(SetLine(key, v, allow)) && !AtEnd(SetLine(key, v, allow))
    ensures PostconfLine(SetLine(key, v, allow), allow) == Good(Line(key, v, First(Uses1(v, allow))), [])
  {
    hide ValueTokens, LineValue, Uses1, PrintableValue;
    ValueReads(key, v, allow);
    ValueIsLine(v, allow);
    var r := SetLine(key, v, allow);
    assert r[1..][0] == Ident(key) && r[1..][1..] == ValueTokens(v, allow);
  }

  lemma {:induction false} DropLineReads(key: string, allow: bool)
    ensures IsLine(DropLine(key)) && PostconfLine(DropLine(key), allow) == Good(Line(key, "", None), [])
  {
    assert DropLine(key)[1..][0] == Ident(key) && DropLine(key)[1..][1..] == [];
  }

  predicate Listed<T>(keys: seq<string>, m: map<string, T>) {
    forall k :: k in keys ==> k in m
  }

  lemma {:induction false} ListedTail<T>(keys: seq<string>, m: map<string, T>)
    requires Listed(keys, m) && keys != []
    ensures keys[0] in m && Listed(keys[1..], m)
  {
    assert keys == [keys[0]] + keys[1..];
  }

  function SetLines(keys: seq<string>, m: map<string, string>, allow: bool): seq<Tokens>
    requires Listed(keys, m)
  {
    if keys == [] then []
    else
      ListedTail(keys, m);
      [SetLine(keys[0], m[keys[0]], allow)] + SetLines(keys[1..], m, allow)
  }

  function UsesOf(keys: seq<string>, m: map<string, string>, allow: bool): seq<Planner.Lookup>
    requires Listed(keys, m)
  {
    if keys == [] then []
    else
      ListedTail(keys, m);
      Uses1(m[keys[0]], allow) + UsesOf(keys[1..], m, allow)
  }

  function DropLines(keys: seq<string>): seq<Tokens> {
    if keys == [] then [] else [DropLine(keys[0])] + DropLines(keys[1..])
  }

  function VarKind(typ: string): Kind {
    if typ == "VAR" then VarKw else if typ == "LOCAL" then LocalKw else if typ == "MAPFILE" then MapfileKw else MaplocalKw
  }

  function VarLines(keys: seq<string>, vars: map<string, string>): seq<Tokens>
    requires Listed(keys, vars)
  {
    if keys == [] then []
    else
      ListedTail(keys, vars);
      [[Kw(VarKind(vars[keys[0]])), Ident(keys[0])]] + VarLines(keys[1..], vars)
  }

  function RewriteLine(source: string, target: Planner.Target): Tokens {
    [Kw(RewriteKw), Quote(source), Quote(target.path), Kw(ModeKw), Quote(target.mode)]
  }

  function RewriteLines(keys: seq<string>, m: map<string, Planner.Target>): seq<Tokens>
    requires Listed(keys, m)
  {
    if keys == [] then []
    else
      ListedTail(keys, m);
      [RewriteLine(keys[0], m[keys[0]])] + RewriteLines(keys[1..], m)
  }

  function LdapLines(keys: seq<string>, m: map<string, string>): seq<Tokens>
    requires Listed(keys, m)
  {
    if keys == [] then []
    else
      ListedTail(keys, m);
      [[Ident("LDAP"), Ident(keys[0]), Quote(m[keys[0]])]] + LdapLines(keys[1..], m)
  }

  /////////// What each kind of line adds to a section ///////////

  const HEADS: set<Kind> := {IfKw, FiKw, SectionKw}

  lemma {:induction false} PlainConcat(a: seq<Tokens>, b: seq<Tokens>)
    requires Plain(a, HEADS) && Plain(b, HEADS)
    ensures Plain(a + b, HEADS)
  {
    hide IsLine, Starts;
  }

  lemma {:induction false} PlainAll(lines: seq<Tokens>)
    requires Plain(lines, HEADS)
    ensures Plain(lines, {IfKw}) && Plain(lines, {}) && Plain(lines, {FiKw, SectionKw}) && Plain(lines, {IfKw, SectionKw})
  {
    hide IsLine;
  }

  lemma {:induction false} PlainOne(l: Tokens)
    requires IsLine(l) && !Starts(l, HEADS)
    ensures Plain([l], HEADS)
  {
    hide IsLine, Starts;
  }

  /** Lines one after the other. */
  lemma {:induction false} SectionOfConcat(a: seq<Tokens>, b: seq<Tokens>, s: Section)
    requires Plain(a, {IfKw}) && Plain(b, {IfKw}) && SectionOf(a, s).Good?
    ensures Plain(a + b, {IfKw}) && SectionOf(a + b, s) == SectionOf(b, SectionOf(a, s).value)
    decreases |a|
  {
    hide IsLine, Directive;
    if a == [] {
      assert a + b == b;
    } else {
      assert (a + b)[1..] == a[1..] + b;
      if a[0] == [] {
        SectionOfConcat(a[1..], b, s);
      } else {
        SectionOfConcat(a[1..], b, Directive(a[0], s).value);
      }
    }
  }

  lemma {:induction false} SectionOfFirst(l: Tokens, rest: seq<Tokens>, s: Section, after: Section)
    requires IsLine(l) && l != [] && !Starts(l, HEADS) && Plain(rest, HEADS) && Directive(l, s) == Good(after, [])
    ensures Plain([l] + rest, HEADS) && Plain([l] + rest, {IfKw}) && Plain(rest, {IfKw})
    ensures SectionOf([l] + rest, s) == SectionOf(rest, after)
  {
    hide IsLine, Directive;
    PlainOne(l);
    PlainConcat([l], rest);
    PlainAll(rest);
    PlainAll([l] + rest);
    assert ([l] + rest)[1..] == rest;
  }

  lemma {:induction false} RegisterFirst(vars: map<string, string>, l: seq<Planner.Lookup>)
    requires |l| <= 1
    ensures Registered(vars, First(l)) == RegisterAll(vars, l)
  {
    hide RegisterAll;
    RegisterOne(vars, if l == [] then Planner.Lookup("", "") else l[0]);
    assert l != [] ==> l == [l[0]];
  }

  lemma {:induction false} SetLineAdds(key: string, v: string, s: Section)
    requires PrintableValue(v, true)
    ensures Directive(SetLine(key, v, true), s) ==
            Good(s.(postconf := s.postconf[key := v], requiredVars := RegisterAll(s.requiredVars, Uses1(v, true))), [])
  {
    hide PostconfLine, SkipToNewline, Registered, RegisterAll, ValueTokens, PrintableValue;
    SetLineReads(key, v, true);
    RegisterFirst(s.requiredVars, Uses1(v, true));
    SkipInLine([], NEWLINE);
    assert SetLine(key, v, true)[0] == Kw(PostconfKw);
  }

  lemma {:induction false} SetLineStarts(key: string, v: string, allow: bool)
    ensures SetLine(key, v, allow) != [] && !Starts(SetLine(key, v, allow), HEADS)
  {
    hide ValueTokens;
    assert SetLine(key, v, allow)[0] == Kw(PostconfKw);
  }

  lemma {:induction false} SetLinesAdd(keys: seq<string>, m: map<string, string>, s: Section)
    requires Listed(keys, m) && forall k :: k in keys ==> PrintableValue(m[k], true)
    ensures Plain(SetLines(keys, m, true), HEADS) && Plain(SetLines(keys, m, true), {IfKw})
    ensures SectionOf(SetLines(keys, m, true), s) ==
            Good(s.(postconf := Over(s.postconf, m, keys), requiredVars := RegisterAll(s.requiredVars, UsesOf(keys, m, true))), [])
    decreases |keys|
  {
    hide Directive, PrintableValue, RegisterAll, IsLine, Uses1, SetLine;
    RegisterOne(s.requiredVars, Planner.Lookup("", ""));
    if keys != [] {
      ListedTail(keys, m);
      var k := keys[0];
      var after := s.(postconf := s.postconf[k := m[k]], requiredVars := RegisterAll(s.requiredVars, Uses1(m[k], true)));
      SetLineReads(k, m[k], true);
      SetLineStarts(k, m[k], true);
      SetLineAdds(k, m[k], s);
      SetLinesAdd(keys[1..], m, after);
      SectionOfFirst(SetLine(k, m[k], true), SetLines(keys[1..], m, true), s, after);
      RegisterConcat(s.requiredVars, Uses1(m[k], true), UsesOf(keys[1..], m, true));
    }
  }

  lemma {:induction false} DropLineAdds(key: string, s: Section)
    ensures Directive(DropLine(key), s) == Good(s.(postconfd := s.postconfd[key := ""]), [])
  {
    hide PostconfLine, SkipToNewline;
    DropLineReads(key, false);
    SkipInLine([], NEWLINE);
  }

  lemma {:induction false} DropLinesAdd(keys: seq<string>, m: map<string, string>, s: Section)
    requires Listed(keys, m) && forall k :: k in keys ==> m[k] == ""
    ensures Plain(DropLines(keys), HEADS) && Plain(DropLines(keys), {IfKw})
    ensures SectionOf(DropLines(keys), s) == Good(s.(postconfd := Over(s.postconfd, m, keys)), [])
    decreases |keys|
  {
    hide Directive, IsLine;
    if keys != [] {
      ListedTail(keys, m);
      var after := s.(postconfd := s.postconfd[keys[0] := m[keys[0]]]);
      DropLineReads(keys[0], false);
      DropLineAdds(keys[0], s);
      DropLinesAdd(keys[1..], m, after);
      SectionOfFirst(DropLine(keys[0]), DropLines(keys[1..]), s, after);
    }
  }

  const VAR_TYPES: set<string> := {"VAR", "LOCAL", "MAPFILE", "MAPLOCAL"}

  lemma {:induction false} VarLineAdds(typ: string, name: string, s: Section)
    requires typ in VAR_TYPES
    ensures var l: Tokens := [Kw(VarKind(typ)), Ident(name)];
            && IsLine(l) && !Starts(l, HEADS)
            && Directive(l, s) == Good(s.(requiredVars := s.requiredVars[name := typ]), [])
  {
    hide SkipToNewline, Name;
    SkipInLine([], NEWLINE);
    var l: Tokens := [Kw(VarKind(typ)), Ident(name)];
    assert l[1..] == [Ident(name)] && l[1..][1..] == [];
  }

  lemma {:induction false} VarLinesAdd(keys: seq<string>, vars: map<string, string>, s: Section)
    requires Listed(keys, vars) && forall k :: k in keys ==> vars[k] in VAR_TYPES
    ensures Plain(VarLines(keys, vars), HEADS) && Plain(VarLines(keys, vars), {IfKw})
    ensures SectionOf(VarLines(keys, vars), s) == Good(s.(requiredVars := Over(s.requiredVars, vars, keys)), [])
    decreases |keys|
  {
    hide Directive, IsLine, VarKind, VAR_TYPES;
    if keys != [] {
      ListedTail(keys, vars);
      var after := s.(requiredVars := s.requiredVars[keys[0] := vars[keys[0]]]);
      VarLineAdds(vars[keys[0]], keys[0], s);
      VarLinesAdd(keys[1..], vars, after);
      SectionOfFirst([Kw(VarKind(vars[keys[0]])), Ident(keys[0])], VarLines(keys[1..], vars), s, after);
    }
  }

  lemma {:induction false} RewriteLineAdds(source: string, target: Planner.Target, s: Section)
    requires source != "" && target.path != ""
    ensures var l := RewriteLine(source, target);
            IsLine(l) && !Starts(l, HEADS) && Directive(l, s) == Good(s.(rewrites := s.rewrites[source := target]), [])
  {
    hide SkipToNewline, Name;
    SkipInLine([], NEWLINE);
    var l := RewriteLine(source, target);
    assert l[1..] == [Quote(source), Quote(target.path), Kw(ModeKw), Quote(target.mode)];
    assert l[1..][1..] == [Quote(target.path), Kw(ModeKw), Quote(target.mode)];
    assert l[1..][1..][1..] == [Kw(ModeKw), Quote(target.mode)];
    assert l[1..][1..][1..][1..] == [Quote(target.mode)] && [Quote(target.mode)][1..] == [];
  }

  lemma {:induction false} RewriteLinesAdd(keys: seq<string>, m: map<string, Planner.Target>, s: Section)
    requires Listed(keys, m) && forall k :: k in keys ==> k != "" && m[k].path != ""
    ensures Plain(RewriteLines(keys, m), HEADS) && Plain(RewriteLines(keys, m), {IfKw})
    ensures SectionOf(RewriteLines(keys, m), s) == Good(s.(rewrites := Over(s.rewrites, m, keys)), [])
    decreases |keys|
  {
    hide Directive, IsLine, RewriteLine;
    if keys != [] {
      ListedTail(keys, m);
      var after := s.(rewrites := s.rewrites[keys[0] := m[keys[0]]]);
      RewriteLineAdds(keys[0], m[keys[0]], s);
      RewriteLinesAdd(keys[1..], m, after);
      RewriteLineStarts(keys[0], m[keys[0]]);
      SectionOfFirst(RewriteLine(keys[0], m[keys[0]]), RewriteLines(keys[1..], m), s, after);
    }
  }

  lemma {:induction false} RewriteLineStarts(source: string, target: Planner.Target)
    ensures RewriteLine(source, target) != []
  {}

  predicate LdapValue(v: string) {
    HasPrefix(v, "LOCAL:") || HasPrefix(v, "MAPLOCAL:")
  }

  lemma {:induction false} LdapLineAdds(key: string, v: string, s: Section)
    requires LdapValue(v)
    ensures var l: Tokens := [Ident("LDAP"), Ident(key), Quote(v)];
            IsLine(l) && !Starts(l, HEADS) && Directive(l, s) == Good(s.(ldap := s.ldap[key := v]), [])
  {
    hide SkipToNewline, Parts, HasPrefix, Upper;
    SkipInLine([], NEWLINE);
    var l: Tokens := [Ident("LDAP"), Ident(key), Quote(v)];
    LiteralReads(v, true);
    assert l[1..][0] == Ident(key) && l[1..][1..] == [Quote(v)];
    UpperFixed("LDAP");
  }

  /** Any other value of an LDAP line is read and dropped. */
  lemma {:induction false} OtherLdapDropped(key: string, v: string, s: Section)
    requires !LdapValue(v)
    ensures Directive([Ident("LDAP"), Ident(key), Quote(v)], s) == Good(s, [])
  {
    hide SkipToNewline, Parts, HasPrefix, Upper;
    SkipInLine([], NEWLINE);
    var l: Tokens := [Ident("LDAP"), Ident(key), Quote(v)];
    LiteralReads(v, true);
    assert l[1..][0] == Ident(key) && l[1..][1..] == [Quote(v)];
    UpperFixed("LDAP");
  }

  lemma {:induction false} UpperFixed(s: string)
    requires forall k :: 0 <= k < |s| ==> !('a' <= s[k] <= 'z')
    ensures Upper(s) == s
  {
    if s != "" { UpperFixed(s[1..]); }
  }

  lemma {:induction false} LdapLinesAdd(keys: seq<string>, m: map<string, string>, s: Section)
    requires Listed(keys, m) && forall k :: k in keys ==> LdapValue(m[k])
    ensures Plain(LdapLines(keys, m), HEADS) && Plain(LdapLines(keys, m), {IfKw})
    ensures SectionOf(LdapLines(keys, m), s) == Good(s.(ldap := Over(s.ldap, m, keys)), [])
    decreases |keys|
  {
    hide Directive, IsLine, LdapValue;
    if keys != [] {
      ListedTail(keys, m);
      var after := s.(ldap := s.ldap[keys[0] := m[keys[0]]]);
      LdapLineAdds(keys[0], m[keys[0]], s);
      LdapLinesAdd(keys[1..], m, after);
      SectionOfFirst([Ident("LDAP"), Ident(keys[0]), Quote(m[keys[0]])], LdapLines(keys[1..], m), s, after);
    }
  }

  function RestartLine(services: set<string>): Tokens {
    [Kw(RestartKw)] + Idents(SortedKeys(services))
  }

  lemma {:induction false} RestartLineAdds(services: set<string>, s: Section)
    ensures var l := RestartLine(services);
            IsLine(l) && !Starts(l, HEADS) && Directive(l, s) == Good(s.(restarts := s.restarts + services), [])
  {
    hide SkipToNewline, Words, SortedKeys, Idents;
    SkipInLine([], NEWLINE);
    var words := SortedKeys(services);
    IdentsAreLine(words);
    WordsOfIdents(words, []);
    assert Idents(words) + [] == Idents(words);
    assert (set w | w in words) == services;
    assert RestartLine(services)[1..] == Idents(words);
  }

  const PROXYGEN_LINE: Tokens := [Kw(ProxygenKw)]

  lemma {:induction false} ProxygenLineAdds(s: Section)
    ensures IsLine(PROXYGEN_LINE) && !Starts(PROXYGEN_LINE, HEADS)
    ensures Directive(PROXYGEN_LINE, s) == Good(s.(proxygen := true), [])
  {
    assert PROXYGEN_LINE[1..] == [];
  }

  /////////// The required variables ///////////

  /** The names with a line of their own. */
  function Explicit(vars: map<string, string>, types: set<string>): seq<string> {
    SortedKeys(set n | n in vars && vars[n] in types)
  }

  /** Every lookup is a required variable, under its own type unless a later line says otherwise, and every variable
      without such a line is looked up. */
  predicate VarsMatch(vars: map<string, string>, uses: seq<Planner.Lookup>, types: set<string>) {
    && (forall l :: l in uses ==> l.key in vars && (vars[l.key] in types || vars[l.key] == l.typ))
    && (forall n :: n in vars ==> vars[n] in types || Planner.Lookup(vars[n], n) in uses)
  }

  lemma {:induction false} VarsRebuilt(vars: map<string, string>, uses: seq<Planner.Lookup>, types: set<string>)
    requires VarsMatch(vars, uses, types)
    ensures Listed(Explicit(vars, types), vars) && Over(RegisterAll(map[], uses), vars, Explicit(vars, types)) == vars
  {
    hide RegisterAll, LastType, Over, VarsMatch;
    var keys := Explicit(vars, types);
    var registered := RegisterAll(map[], uses);
    forall n ensures n in Over(registered, vars, keys) <==> n in vars { OverAt(registered, vars, keys, n); VarRebuilt(vars, uses, types, n); }
    forall n | n in vars ensures Over(registered, vars, keys)[n] == vars[n] {
      OverAt(registered, vars, keys, n);
      VarRebuilt(vars, uses, types, n);
    }
  }

  lemma {:induction false} VarRebuilt(vars: map<string, string>, uses: seq<Planner.Lookup>, types: set<string>, n: string)
    requires VarsMatch(vars, uses, types)
    ensures n in RegisterAll(map[], uses) ==> n in vars
    ensures n in vars && vars[n] !in types ==> n in RegisterAll(map[], uses) && RegisterAll(map[], uses)[n] == vars[n]
  {
    hide RegisterAll, LastType;
    LastTypeRegistered(map[], uses, n);
    var last := LastType(uses, n);
    if last.Some? { LastTypeUsed(uses, n); }
    if n in vars && vars[n] !in types { UsedHasLast(uses, Planner.Lookup(vars[n], n)); }
  }

  /////////// A section without its blocks ///////////

  predicate PrintableSection(sec: Section) {
    && (forall k :: k in sec.postconf ==> PrintableValue(sec.postconf[k], true))
    && (forall k :: k in sec.postconfd ==> sec.postconfd[k] == "")
    && VarsMatch(sec.requiredVars, UsesOf(SortedKeys(sec.postconf.Keys), sec.postconf, true), VAR_TYPES)
    && (forall k :: k in sec.rewrites ==> k != "" && sec.rewrites[k].path != "")
    && (forall k :: k in sec.ldap ==> LdapValue(sec.ldap[k]))
  }

  /** Parameters, then required variables. */
  function ParamLines(sec: Section): seq<Tokens> {
    SetLines(SortedKeys(sec.postconf.Keys), sec.postconf, true) + DropLines(SortedKeys(sec.postconfd.Keys)) +
    VarLines(Explicit(sec.requiredVars, VAR_TYPES), sec.requiredVars)
  }

  function OtherLines(sec: Section): seq<Tokens> {
    RewriteLines(SortedKeys(sec.rewrites.Keys), sec.rewrites) + LdapLines(SortedKeys(sec.ldap.Keys), sec.ldap) +
    [RestartLine(sec.restarts)] + (if sec.proxygen then [PROXYGEN_LINE] else [])
  }

  lemma {:induction false} ParamLinesAdd(sec: Section, s: Section)
    requires PrintableSection(sec) && s.postconf == map[] && s.postconfd == map[] && s.requiredVars == map[]
    ensures Plain(ParamLines(sec), HEADS) && Plain(ParamLines(sec), {IfKw})
    ensures SectionOf(ParamLines(sec), s) ==
            Good(s.(postconf := sec.postconf, postconfd := sec.postconfd, requiredVars := sec.requiredVars), [])
  {
    hide SetLines, DropLines, VarLines, SectionOf, Over, RegisterAll, SortedKeys, VarsMatch, UsesOf, PrintableValue, IsLine, Starts, VAR_TYPES, LdapValue;
    var setKeys, dropKeys, varKeys := SortedKeys(sec.postconf.Keys), SortedKeys(sec.postconfd.Keys), Explicit(sec.requiredVars, VAR_TYPES);
    var uses := UsesOf(setKeys, sec.postconf, true);
    OverAll(sec.postconf);
    OverAll(sec.postconfd);
    VarsRebuilt(sec.requiredVars, uses, VAR_TYPES);
    SetLinesAdd(setKeys, sec.postconf, s);
    var s1 := s.(postconf := sec.postconf, requiredVars := RegisterAll(map[], uses));
    DropLinesAdd(dropKeys, sec.postconfd, s1);
    var s2 := s1.(postconfd := sec.postconfd);
    VarLinesAdd(varKeys, sec.requiredVars, s2);
    var a, b, c := SetLines(setKeys, sec.postconf, true), DropLines(dropKeys), VarLines(varKeys, sec.requiredVars);
    PlainConcat(a, b);
    PlainConcat(a + b, c);
    SectionOfConcat(a, b, s);
    SectionOfConcat(a + b, c, s);
  }

  lemma {:induction false} OtherLinesAdd(sec: Section, s: Section)
    requires PrintableSection(sec) && s.rewrites == map[] && s.ldap == map[] && s.restarts == {} && !s.proxygen
    ensures Plain(OtherLines(sec), HEADS) && Plain(OtherLines(sec), {IfKw})
    ensures SectionOf(OtherLines(sec), s) ==
            Good(s.(rewrites := sec.rewrites, ldap := sec.ldap, restarts := sec.restarts, proxygen := sec.proxygen), [])
  {
    hide RewriteLines, LdapLines, SectionOf, Over, SortedKeys, VarsMatch, UsesOf, PrintableValue, IsLine, Starts, RestartLine, LdapValue;
    OverAll(sec.rewrites);
    OverAll(sec.ldap);
    var a, b := RewriteLines(SortedKeys(sec.rewrites.Keys), sec.rewrites), LdapLines(SortedKeys(sec.ldap.Keys), sec.ldap);
    RewriteLinesAdd(SortedKeys(sec.rewrites.Keys), sec.rewrites, s);
    var s1 := s.(rewrites := sec.rewrites);
    LdapLinesAdd(SortedKeys(sec.ldap.Keys), sec.ldap, s1);
    var s2 := s1.(ldap := sec.ldap);
    LastLinesAdd(sec, s2);
    var c := [RestartLine(sec.restarts)] + (if sec.proxygen then [PROXYGEN_LINE] else []);
    PlainConcat(a, b);
    PlainConcat(a + b, c);
    SectionOfConcat(a, b, s);
    SectionOfConcat(a + b, c, s);
    assert OtherLines(sec) == a + b + c;
  }

  lemma {:induction false} LastLinesAdd(sec: Section, s: Section)
    requires s.restarts == {} && !s.proxygen
    ensures var c := [RestartLine(sec.restarts)] + (if sec.proxygen then [PROXYGEN_LINE] else []);
            && Plain(c, HEADS) && Plain(c, {IfKw})
            && SectionOf(c, s) == Good(s.(restarts := sec.restarts, proxygen := sec.proxygen), [])
  {
    hide Directive, IsLine, RestartLine;
    RestartLineAdds(sec.restarts, s);
    var after := s.(restarts := {} + sec.restarts);
    assert {} + sec.restarts == sec.restarts;
    ProxygenLineAdds(after);
    RestartLineStarts(sec.restarts);
    NoLines();
    assert SectionOf([], after.(proxygen := sec.proxygen)) == Good(after.(proxygen := sec.proxygen), []);
    if sec.proxygen {
      SectionOfFirst(PROXYGEN_LINE, [], after, after.(proxygen := true));
      assert [PROXYGEN_LINE] + [] == [PROXYGEN_LINE];
      SectionOfFirst(RestartLine(sec.restarts), [PROXYGEN_LINE], s, after);
    } else {
      SectionOfFirst(RestartLine(sec.restarts), [], s, after);
    }
  }

  lemma {:induction false} NoLines()
    ensures Plain([], HEADS)
  {}

  lemma {:induction false} RestartLineStarts(services: set<string>)
    ensures RestartLine(services) != []
  {}

  function PlainLines(sec: Section): seq<Tokens> {
    ParamLines(sec) + OtherLines(sec)
  }

  /** The plain lines of a section are read back as the section without its blocks. */
  lemma {:induction false} PlainLinesAdd(sec: Section)
    requires PrintableSection(sec)
    ensures Plain(PlainLines(sec), {IfKw, SectionKw}) && Plain(PlainLines(sec), {IfKw})
    ensures SectionOf(PlainLines(sec), NO_SECTION.(depends := sec.depends)) == Good(sec.(conditionals := []), [])
  {
    hide ParamLines, OtherLines, SectionOf, PrintableSection, IsLine;
    var s := NO_SECTION.(depends := sec.depends);
    ParamLinesAdd(sec, s);
    var s1 := s.(postconf := sec.postconf, postconfd := sec.postconfd, requiredVars := sec.requiredVars);
    OtherLinesAdd(sec, s1);
    PlainConcat(ParamLines(sec), OtherLines(sec));
    PlainAll(PlainLines(sec));
    SectionOfConcat(ParamLines(sec), OtherLines(sec), s);
  }

  /////////// Blocks ///////////

  const BLOCK_TYPES: set<string> := {"VAR", "LOCAL"}

  predicate PrintableBlock(b: Block) {
    && (b.typ == "SERVICE" || b.typ == "VAR") && (!b.negated ==> !HasPrefix(b.key, "!"))
    && (forall k :: k in b.postconf ==> PrintableValue(b.postconf[k], false))
    && (forall k :: k in b.postconfd ==> b.postconfd[k] == "")
    && VarsMatch(b.requiredVars, UsesOf(SortedKeys(b.postconf.Keys), b.postconf, false), BLOCK_TYPES)
  }

  function IfLine(b: Block): Tokens {
    [Kw(IfKw), Kw(if b.typ == "SERVICE" then ServiceKw else VarKw), Ident(if b.negated then "!" + b.key else b.key)]
  }

  const FI_LINE: Tokens := [Kw(FiKw)]

  function BodyLines(b: Block): seq<Tokens> {
    SetLines(SortedKeys(b.postconf.Keys), b.postconf, false) + DropLines(SortedKeys(b.postconfd.Keys)) +
    VarLines(Explicit(b.requiredVars, BLOCK_TYPES), b.requiredVars)
  }

  lemma {:induction false} BlockOfConcat(a: seq<Tokens>, c: seq<Tokens>, b: Block)
    requires Plain(a, {}) && Plain(c, {}) && BlockOf(a, b).Good?
    ensures Plain(a + c, {}) && BlockOf(a + c, b) == BlockOf(c, BlockOf(a, b).value)
    decreases |a|
  {
    hide IsLine, BlockLine;
    if a == [] {
      assert a + c == c;
    } else {
      assert (a + c)[1..] == a[1..] + c;
      if a[0] == [] {
        BlockOfConcat(a[1..], c, b);
      } else {
        TailIsLine(a[0]);
        BlockOfConcat(a[1..], c, BlockLine(a[0], b).value);
      }
    }
  }

  lemma {:induction false} BlockOfFirst(l: Tokens, rest: seq<Tokens>, b: Block, after: Block)
    requires IsLine(l) && l != [] && !Starts(l, HEADS) && Plain(rest, HEADS)
    requires !AtEnd(l) && !AtNewline(l) && BlockLine(l, b).Good? && BlockLine(l, b).value == after
    ensures Plain([l] + rest, HEADS) && Plain([l] + rest, {}) && Plain(rest, {})
    ensures BlockOf([l] + rest, b) == BlockOf(rest, after)
  {
    hide IsLine, BlockLine;
    PlainOne(l);
    PlainConcat([l], rest);
    PlainAll(rest);
    PlainAll([l] + rest);
    assert ([l] + rest)[1..] == rest;
  }

  lemma {:induction false} SetLinesAddToBlock(keys: seq<string>, m: map<string, string>, b: Block)
    requires Listed(keys, m) && forall k :: k in keys ==> PrintableValue(m[k], false)
    ensures Plain(SetLines(keys, m, false), HEADS) && Plain(SetLines(keys, m, false), {})
    ensures BlockOf(SetLines(keys, m, false), b) ==
            Good(b.(postconf := Over(b.postconf, m, keys), requiredVars := RegisterAll(b.requiredVars, UsesOf(keys, m, false))), [])
    decreases |keys|
  {
    hide BlockLine, PrintableValue, RegisterAll, IsLine, Uses1, SetLine;
    RegisterOne(b.requiredVars, Planner.Lookup("", ""));
    if keys != [] {
      ListedTail(keys, m);
      var k := keys[0];
      var after := b.(postconf := b.postconf[k := m[k]], requiredVars := RegisterAll(b.requiredVars, Uses1(m[k], false)));
      SetLineInBlock(k, m[k], b);
      SetLineStarts(k, m[k], false);
      SetLinesAddToBlock(keys[1..], m, after);
      BlockOfFirst(SetLine(k, m[k], false), SetLines(keys[1..], m, false), b, after);
      RegisterConcat(b.requiredVars, Uses1(m[k], false), UsesOf(keys[1..], m, false));
    }
  }

  lemma {:induction false} SetLineInBlock(key: string, v: string, b: Block)
    requires PrintableValue(v, false)
    ensures var l := SetLine(key, v, false);
            && IsLine(l) && !AtEnd(l) && !AtNewline(l) && BlockLine(l, b).Good?
            && BlockLine(l, b).value ==
               b.(postconf := b.postconf[key := v], requiredVars := RegisterAll(b.requiredVars, Uses1(v, false)))
  {
    hide PostconfLine, SkipToNewline, Registered, RegisterAll, ValueTokens, PrintableValue;
    SetLineReads(key, v, false);
    RegisterFirst(b.requiredVars, Uses1(v, false));
    assert SetLine(key, v, false)[0] == Kw(PostconfKw);
  }

  lemma {:induction false} DropLinesAddToBlock(keys: seq<string>, m: map<string, string>, b: Block)
    requires Listed(keys, m) && forall k :: k in keys ==> m[k] == ""
    ensures Plain(DropLines(keys), HEADS) && Plain(DropLines(keys), {})
    ensures BlockOf(DropLines(keys), b) == Good(b.(postconfd := Over(b.postconfd, m, keys)), [])
    decreases |keys|
  {
    hide BlockLine, IsLine;
    if keys != [] {
      ListedTail(keys, m);
      var after := b.(postconfd := b.postconfd[keys[0] := m[keys[0]]]);
      DropLineInBlock(keys[0], b);
      DropLinesAddToBlock(keys[1..], m, after);
      BlockOfFirst(DropLine(keys[0]), DropLines(keys[1..]), b, after);
    }
  }

  lemma {:induction false} DropLineInBlock(key: string, b: Block)
    ensures var l := DropLine(key);
            IsLine(l) && BlockLine(l, b).Good? && BlockLine(l, b).value == b.(postconfd := b.postconfd[key := ""])
  {
    hide PostconfLine, SkipToNewline;
    DropLineReads(key, false);
  }

  lemma {:induction false} VarLinesAddToBlock(keys: seq<string>, vars: map<string, string>, b: Block)
    requires Listed(keys, vars) && forall k :: k in keys ==> vars[k] in BLOCK_TYPES
    ensures Plain(VarLines(keys, vars), HEADS) && Plain(VarLines(keys, vars), {})
    ensures BlockOf(VarLines(keys, vars), b) == Good(b.(requiredVars := Over(b.requiredVars, vars, keys)), [])
    decreases |keys|
  {
    hide BlockLine, IsLine, VarKind, BLOCK_TYPES;
    if keys != [] {
      ListedTail(keys, vars);
      var after := b.(requiredVars := b.requiredVars[keys[0] := vars[keys[0]]]);
      VarLineInBlock(vars[keys[0]], keys[0], b);
      VarLinesAddToBlock(keys[1..], vars, after);
      BlockOfFirst([Kw(VarKind(vars[keys[0]])), Ident(keys[0])], VarLines(keys[1..], vars), b, after);
    }
  }

  lemma {:induction false} VarLineInBlock(typ: string, name: string, b: Block)
    requires typ in BLOCK_TYPES
    ensures var l: Tokens := [Kw(VarKind(typ)), Ident(name)];
            && IsLine(l) && !Starts(l, HEADS) && !AtEnd(l) && !AtNewline(l) && BlockLine(l, b).Good?
            && BlockLine(l, b).value == b.(requiredVars := b.requiredVars[name := typ])
  {
    hide SkipToNewline, Name;
    var l: Tokens := [Kw(VarKind(typ)), Ident(name)];
    assert l[1..] == [Ident(name)];
  }

  lemma {:induction false} KeyReads(b: Block)
    requires !b.negated ==> !HasPrefix(b.key, "!")
    ensures var text := if b.negated then "!" + b.key else b.key;
            HasPrefix(text, "!") == b.negated && (b.negated ==> text[1..] == b.key)
  {
    assert ("!" + b.key)[1..] == b.key && ("!" + b.key)[..1] == "!";
  }

  lemma {:induction false} IfLineReads(b: Block)
    requires PrintableBlock(b)
    ensures IsLine(IfLine(b)) && Starts(IfLine(b), {IfKw})
    ensures BlockHeader(IfLine(b)) == Good(Block(b.typ, b.key, b.negated, map[], map[], map[]), [])
  {
    hide PrintableValue, VarsMatch, UsesOf, Upper, HasPrefix;
    var l := IfLine(b);
    UpperFixed("SERVICE");
    UpperFixed("VAR");
    KeyReads(b);
    assert l[1..] == [l[1], l[2]] && [l[1], l[2]][1..] == [l[2]] && [l[2]][1..] == [];
  }

  /** The lines of a block are read back as the block. */
  lemma {:induction false} BlockReads(b: Block)
    requires PrintableBlock(b)
    ensures IsLine(IfLine(b)) && Starts(IfLine(b), {IfKw})
    ensures Plain(BodyLines(b), {FiKw, SectionKw}) && WholeBlock(IfLine(b), BodyLines(b)) == Good(b, [])
  {
    hide SetLines, DropLines, VarLines, BlockOf, Over, RegisterAll, SortedKeys, VarsMatch, UsesOf, PrintableValue, IsLine, Starts,
         BLOCK_TYPES, IfLine, BlockHeader;
    IfLineReads(b);
    var setKeys, dropKeys, varKeys := SortedKeys(b.postconf.Keys), SortedKeys(b.postconfd.Keys), Explicit(b.requiredVars, BLOCK_TYPES);
    var uses := UsesOf(setKeys, b.postconf, false);
    OverAll(b.postconf);
    OverAll(b.postconfd);
    VarsRebuilt(b.requiredVars, uses, BLOCK_TYPES);
    var b0 := Block(b.typ, b.key, b.negated, map[], map[], map[]);
    SetLinesAddToBlock(setKeys, b.postconf, b0);
    var b1 := b0.(postconf := b.postconf, requiredVars := RegisterAll(map[], uses));
    DropLinesAddToBlock(dropKeys, b.postconfd, b1);
    var b2 := b1.(postconfd := b.postconfd);
    VarLinesAddToBlock(varKeys, b.requiredVars, b2);
    var x, y, z := SetLines(setKeys, b.postconf, false), DropLines(dropKeys), VarLines(varKeys, b.requiredVars);
    PlainConcat(x, y);
    PlainConcat(x + y, z);
    PlainAll(x + y + z);
    BlockOfConcat(x, y, b0);
    BlockOfConcat(x + y, z, b0);
  }

  /////////// Sections and files ///////////

  predicate Printable(sec: Section) {
    PrintableSection(sec) && forall k :: 0 <= k < |sec.conditionals| ==> PrintableBlock(sec.conditionals[k])
  }

  function BlockTokens(b: Block, t: Tokens): Tokens {
    IfLine(b) + (NEWLINE + (Text(BodyLines(b)) + (FI_LINE + (NEWLINE + t))))
  }

  function BlocksTokens(blocks: seq<Block>, t: Tokens): Tokens {
    if blocks == [] then t else BlockTokens(blocks[0], BlocksTokens(blocks[1..], t))
  }

  lemma {:induction false} BlocksRead(blocks: seq<Block>, t: Tokens, s: Section)
    requires forall k :: 0 <= k < |blocks| ==> PrintableBlock(blocks[k])
    ensures Body(BlocksTokens(blocks, t), s) == Body(t, s.(conditionals := s.conditionals + blocks))
    decreases |blocks|
  {
    hide Body, PrintableBlock, IfLine, BodyLines, WholeBlock, Text;
    if blocks == [] {
      assert s.conditionals + blocks == s.conditionals;
    } else {
      var b, rest := blocks[0], BlocksTokens(blocks[1..], t);
      BlockReads(b);
      BlockOfLines(IfLine(b), BodyLines(b), FI_LINE, rest, s);
      BlocksRead(blocks[1..], t, s.(conditionals := s.conditionals + [b]));
      assert s.conditionals + [b] + blocks[1..] == s.conditionals + blocks;
    }
  }

  function HeaderLine(name: string, depends: set<string>): Tokens {
    [Kw(SectionKw), Ident(name)] + (if depends == {} then [] else [Kw(DependsKw)] + Idents(SortedKeys(depends)))
  }

  function SectionTokens(name: string, sec: Section, t: Tokens): Tokens {
    HeaderLine(name, sec.depends) + (NEWLINE + (Text(PlainLines(sec)) + BlocksTokens(sec.conditionals, t)))
  }

  /** The sections `names` of a file, then `t`. */
  function Print(c: Config, names: seq<string>, t: Tokens): Tokens
    requires Listed(names, c)
  {
    if names == [] then t
    else
      ListedTail(names, c);
      SectionTokens(names[0], c[names[0]], Print(c, names[1..], t))
  }

  lemma {:induction false} HeaderReads(name: string, depends: set<string>, body: Tokens)
    ensures Header(HeaderLine(name, depends) + (NEWLINE + body)) == Good((name, NO_SECTION.(depends := depends)), body)
  {
    hide Words, Idents, SortedKeys;
    var n := NEWLINE + body;
    assert n[1..] == body;
    var tail := if depends == {} then [] else [Kw(DependsKw)] + Idents(SortedKeys(depends));
    var r := HeaderLine(name, depends) + n;
    assert r[1..][0] == Ident(name) && r[1..][1..] == tail + n;
    if depends == {} {
      NothingBefore(n);
    } else {
      CurOf(tail, n);
      assert tail[1..] == Idents(SortedKeys(depends));
      WordsOfIdents(SortedKeys(depends), n);
      assert (set w | w in SortedKeys(depends)) == depends;
    }
  }

  lemma {:induction false} SectionReads(name: string, sec: Section, t: Tokens, c: Config)
    requires Printable(sec) && (AtEnd(t) || Cur(t).kind == SectionKw)
    ensures OneSection(SectionTokens(name, sec, t), c) == Good(c[name := sec], t)
    ensures Cur(SectionTokens(name, sec, t)).kind == SectionKw
  {
    hide PlainLines, BlocksTokens, Text, PrintableBlock, PrintableSection, SectionOf, Header, HeaderLine;
    var r := SectionTokens(name, sec, t);
    var body := Text(PlainLines(sec)) + BlocksTokens(sec.conditionals, t);
    HeaderStarts(name, sec.depends, NEWLINE + body);
    HeaderReads(name, sec.depends, body);
    PlainLinesAdd(sec);
    SectionLines(PlainLines(sec), BlocksTokens(sec.conditionals, t), NO_SECTION.(depends := sec.depends));
    BlocksRead(sec.conditionals, t, sec.(conditionals := []));
    assert [] + sec.conditionals == sec.conditionals;
  }

  lemma {:induction false} HeaderStarts(name: string, depends: set<string>, t: Tokens)
    ensures Cur(HeaderLine(name, depends) + t).kind == SectionKw
  {
    hide Idents, SortedKeys;
  }

  /** Printed sections are read one after the other, and then what follows them. */
  lemma {:induction false} PrintedSectionsRead(c: Config, names: seq<string>, t: Tokens, acc: Config, errors: seq<ParseError>)
    requires Listed(names, c) && (AtEnd(t) || Cur(t).kind == SectionKw) && forall sn :: sn in names ==> Printable(c[sn])
    ensures File(Print(c, names, t), acc, errors) == File(t, Over(acc, c, names), errors)
    ensures AtEnd(Print(c, names, t)) || Cur(Print(c, names, t)).kind == SectionKw
    decreases |names|
  {
    hide SectionTokens, Printable, OneSection;
    if names != [] {
      ListedTail(names, c);
      assert names == [names[0]] + names[1..];
      var rest := Print(c, names[1..], t);
      PrintedSectionsRead(c, names[1..], t, acc[names[0] := c[names[0]]], errors);
      SectionReads(names[0], c[names[0]], rest, acc);
      SectionGoesOn(SectionTokens(names[0], c[names[0]], rest), rest, acc, acc[names[0] := c[names[0]]], errors);
    }
  }

  lemma {:induction false} SectionGoesOn(r: Tokens, rest: Tokens, acc: Config, next: Config, errors: seq<ParseError>)
    requires Cur(r).kind == SectionKw && OneSection(r, acc) == Good(next, rest)
    ensures File(r, acc, errors) == File(rest, next, errors)
  {
    hide OneSection;
  }

  /** Every printable configuration is what the grammar reads from its printed form, without errors. */
  lemma {:induction false} PrintedFileParses(c: Config, names: seq<string>, t: Tokens, acc: Config, errors: seq<ParseError>)
    requires Listed(names, c) && AtEnd(t) && forall sn :: sn in names ==> Printable(c[sn])
    ensures File(Print(c, names, t), acc, errors) == (Over(acc, c, names), errors)
  {
    hide Print, Printable, OneSection;
    PrintedSectionsRead(c, names, t, acc, errors);
  }

  lemma {:induction false} BlocksThen(blocks: seq<Block>, t: Tokens)
    ensures BlocksTokens(blocks, t) == BlocksTokens(blocks, []) + t
    decreases |blocks|
  {
    hide IfLine, BodyLines, Text;
    if blocks == [] {
      NothingBefore(t);
    } else {
      BlocksThen(blocks[1..], t);
      BlockThen(blocks[0], BlocksTokens(blocks[1..], []), t);
    }
  }

  lemma {:induction false} BlockThen(b: Block, rest: Tokens, t: Tokens)
    ensures BlockTokens(b, rest + t) == BlockTokens(b, rest) + t
  {
    hide IfLine, BodyLines, Text;
    ThenFive(IfLine(b), NEWLINE, Text(BodyLines(b)), FI_LINE, NEWLINE, rest, t);
  }

  lemma {:induction false} ThenFive(a: Tokens, b: Tokens, c: Tokens, d: Tokens, e: Tokens, rest: Tokens, t: Tokens)
    ensures a + (b + (c + (d + (e + (rest + t))))) == a + (b + (c + (d + (e + rest)))) + t
  {}

  /** What follows a printed file is printed after it. */
  lemma {:induction false} PrintThen(c: Config, names: seq<string>, t: Tokens)
    requires Listed(names, c)
    ensures Print(c, names, t) == Print(c, names, []) + t
    decreases |names|
  {
    hide SectionTokens;
    if names == [] {
      NothingBefore(t);
    } else {
      ListedTail(names, c);
      PrintThen(c, names[1..], t);
      SectionThen(names[0], c[names[0]], Print(c, names[1..], []), t);
    }
  }

  lemma {:induction false} SectionThen(name: string, sec: Section, rest: Tokens, t: Tokens)
    ensures SectionTokens(name, sec, rest + t) == SectionTokens(name, sec, rest) + t
  {
    hide HeaderLine, PlainLines, Text, BlocksTokens;
    BlocksThen(sec.conditionals, rest + t);
    BlocksThen(sec.conditionals, rest);
    ThenFive(HeaderLine(name, sec.depends), NEWLINE, Text(PlainLines(sec)), BlocksTokens(sec.conditionals, []), [], rest, t);
    NothingBefore(rest);
    NothingBefore(rest + t);
  }
}
