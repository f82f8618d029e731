/** The grammar reads a file line by line, and what nested ifs therefore mean. */
module Lines {
  import opened Options
  import opened Lexing
  import opened Parsing

  /** Tokens of one line, without its newline. */
  predicate IsLine(l: Tokens) {
    forall k :: 0 <= k < |l| ==> l[k].kind != Newline && !IsEnd(l[k])
  }

  /** The same outcome with `t` left over in addition. */
  function Before<T>(g: Got<T>, t: Tokens): Got<T> {
    Got(g.value, g.rest + t)
  }

  function Then<T>(p: Parsed<T>, t: Tokens): Parsed<T> {
    match p
    case Good(v, rest) => Good(v, rest + t)
    case Bad(e, rest) => Bad(e, rest + t)
  }

  /////////// Every directive keeps to its line ///////////

  lemma {:induction false} CurOf(l: Tokens, t: Tokens)
    requires l != []
    ensures Cur(l + t) == l[0] && (l + t)[1..] == l[1..] + t
  {}

  lemma {:induction false} TailIsLine(l: Tokens)
    requires IsLine(l) && l != []
    ensures IsLine(l[1..]) && !AtEnd(l) && !AtNewline(l)
  {}

  lemma {:induction false} NothingBefore(t: Tokens)
    ensures [] + t == t
  {}

  lemma {:induction false} SkipInLine(l: Tokens, t: Tokens)
    requires IsLine(l) && AtNewline(t)
    ensures SkipToNewline(l + t) == t && SkipToNewline(l) == []
    decreases |l|
  {
    if l == [] {
      NothingBefore(t);
    } else {
      CurOf(l, t);
      SkipInLine(l[1..], t);
    }
  }

  lemma {:induction false} WordsInLine(l: Tokens, t: Tokens)
    requires IsLine(l) && AtNewline(t)
    ensures Words(l + t) == Before(Words(l), t) && IsLine(Words(l).rest)
    decreases |l|
  {
    if l == [] {
      NothingBefore(t);
    } else {
      CurOf(l, t);
      WordsInLine(l[1..], t);
    }
  }

  lemma {:induction false} SecondOf(l: Tokens, t: Tokens)
    requires IsLine(l) && |l| >= 2
    ensures Cur((l + t)[1..]) == (l + t)[1] == l[1..][0] == l[1] && (l + t)[2..] == (l + t)[1..][1..] == l[1..][1..] + t
    ensures l[2..] == l[1..][1..] && IsLine(l[2..])
  {}

  lemma {:induction false} PathInLine(l: Tokens, t: Tokens)
    requires IsLine(l) && AtNewline(t)
    ensures ReadPath(l + t) == Before(ReadPath(l), t) && IsLine(ReadPath(l).rest)
  {
    hide IsLine, IsPath;
    NoPathAtNewline(t);
    if l == [] {
      NothingBefore(t);
    } else {
      CurOf(l, t);
      TailIsLine(l);
      if |l| == 1 {
        NothingBefore(t);
      } else {
        SecondOf(l, t);
      }
    }
  }

  lemma {:induction false} NoPathAtNewline(t: Tokens)
    requires AtNewline(t)
    ensures !IsPath(Cur(t)) && !IsPath(Cur([]))
  {}

  lemma {:induction false} PartInLine(l: Tokens, t: Tokens)
    requires IsLine(l) && AtNewline(t)
    ensures Part(l + t) == Before(Part(l), t) && IsLine(Part(l).rest)
  {
    hide ReadPath, IsLine;
    if l == [] {
      NothingBefore(t);
    } else {
      CurOf(l, t);
      TailIsLine(l);
      if l[0].kind == FileKw {
        PathInLine(l[1..], t);
      } else if |l| == 1 {
        NothingBefore(t);
      } else {
        SecondOf(l, t);
        PrefixedInLine(l[1..], t);
      }
    }
  }

  lemma {:induction false} PrefixedInLine(l: Tokens, t: Tokens)
    requires IsLine(l) && l != []
    ensures forall prefix :: Prefixed(prefix, l + t) == Before(Prefixed(prefix, l), t) && IsLine(Prefixed(prefix, l).rest)
  {
    CurOf(l, t);
  }

  lemma {:induction false} PartsInLine(l: Tokens, t: Tokens)
    requires IsLine(l) && AtNewline(t)
    ensures Parts(l + t) == Before(Parts(l), t) && IsLine(Parts(l).rest)
    decreases |l|
  {
    hide Part, IsLine;
    PartInLine(l, t);
    if |Part(l).rest| < |l| { PartsInLine(Part(l).rest, t); }
  }

  lemma {:induction false} ValueInLine(l: Tokens, t: Tokens)
    requires IsLine(l) && AtNewline(t)
    ensures Value(l + t) == Before(Value(l), t) && IsLine(Value(l).rest)
  {
    hide Parts, IsLine, Join;
    PartsInLine(l, t);
  }

  lemma {:induction false} LiteralInLine(l: Tokens, t: Tokens, allow: bool)
    requires IsLine(l) && l != [] && AtNewline(t)
    ensures Literal(l + t, allow) == Before(Literal(l, allow), t) && IsLine(Literal(l, allow).rest)
  {
    hide Value, IsLine;
    CurOf(l, t);
    TailIsLine(l);
    ValueInLine(l, t);
    ValueInLine(l[1..], t);
  }

  lemma {:induction false} KeyInLine(l: Tokens, t: Tokens, typ: string, exact: bool)
    requires IsLine(l) && AtNewline(t)
    ensures LookupKey(l + t, typ, exact) == Before(LookupKey(l, typ, exact), t) && IsLine(LookupKey(l, typ, exact).rest)
  {
    hide ReadPath;
    PathInLine(l, t);
    if l == [] { NothingBefore(t); } else { CurOf(l, t); }
  }

  lemma {:induction false} LineValueInLine(key: string, l: Tokens, t: Tokens, allow: bool)
    requires IsLine(l) && AtNewline(t)
    ensures LineValue(key, l + t, allow) == Then(LineValue(key, l, allow), t) && IsLine(LineValue(key, l, allow).rest)
  {
    hide Literal, LookupKey, LookupType, FormatLookup, IsLine;
    if l == [] {
      NothingBefore(t);
    } else {
      CurOf(l, t);
      TailIsLine(l);
      LiteralInLine(l, t, allow);
      var typ := LookupType(l[0], allow);
      if typ.Some? { KeyInLine(l[1..], t, typ.value, IsKeyword(l[0])); }
    }
  }

  lemma {:induction false} PostconfInLine(l: Tokens, t: Tokens, allow: bool)
    requires IsLine(l) && l != [] && AtNewline(t)
    ensures !AtEnd(l) && !AtEnd(l + t)
    ensures PostconfLine(l + t, allow) == Then(PostconfLine(l, allow), t) && IsLine(PostconfLine(l, allow).rest)
  {
    hide LineValue, IsLine;
    CurOf(l, t);
    TailIsLine(l);
    if l[1..] == [] {
      NothingBefore(t);
    } else {
      CurOf(l[1..], t);
      TailIsLine(l[1..]);
      LineValueInLine(l[1].text, l[1..][1..], t, allow);
    }
  }

  lemma {:induction false} RewriteInLine(l: Tokens, t: Tokens, s: Section)
    requires IsLine(l) && l != [] && AtNewline(t)
    ensures !AtEnd(l) && !AtEnd(l + t)
    ensures Rewrite(l + t, s) == Then(Rewrite(l, s), t)
  {
    hide ReadPath, SkipToNewline, Mode, IsLine;
    CurOf(l, t);
    TailIsLine(l);
    PathInLine(l[1..], t);
    var source := ReadPath(l[1..]);
    PathInLine(source.rest, t);
    var dest := ReadPath(source.rest);
    ModeInLine(dest.rest, t);
    SkipInLine(Mode(dest.rest).rest, t);
    NothingBefore(t);
  }

  lemma {:induction false} ModeInLine(l: Tokens, t: Tokens)
    requires IsLine(l) && AtNewline(t)
    ensures Mode(l + t) == Then(Mode(l), t) && IsLine(Mode(l).rest)
  {
    hide IsLine;
    if l == [] {
      NothingBefore(t);
    } else {
      CurOf(l, t);
      TailIsLine(l);
      if l[1..] == [] {
        NothingBefore(t);
      } else {
        CurOf(l[1..], t);
        TailIsLine(l[1..]);
        assert l[1..][0] == l[1];
      }
    }
  }

  lemma {:induction false} FieldsInLine(l: Tokens, t: Tokens, s: Section, typ: string)
    requires IsLine(l) && l != [] && AtNewline(t)
    ensures !AtEnd(l) && !AtEnd(l + t)
    ensures RequiredVar(l + t, s, typ) == Then(RequiredVar(l, s, typ), t) && Ldap(l + t, s) == Then(Ldap(l, s), t)
  {
    hide Value, SkipToNewline, HasPrefix, IsLine;
    CurOf(l, t);
    TailIsLine(l);
    NothingBefore(t);
    if l[1..] != [] {
      CurOf(l[1..], t);
      TailIsLine(l[1..]);
      var rest := l[1..][1..];
      SkipInLine(rest, t);
      ValueInLine(rest, t);
      SkipInLine(Value(rest).rest, t);
    }
  }

  /** A directive other than an if reads its own line only, up to its end. */
  lemma {:induction false} DirectiveInLine(l: Tokens, t: Tokens, s: Section)
    requires IsLine(l) && l != [] && l[0].kind != IfKw && AtNewline(t)
    ensures Directive(l + t, s) == Then(Directive(l, s), t)
    ensures Directive(l, s).Good? ==> Directive(l, s).rest == []
  {
    hide Rewrite, RequiredVar, Ldap, Postconf, Words, SkipToNewline, Upper, IsLine, Conditional;
    CurOf(l, t);
    TailIsLine(l);
    NothingBefore(t);
    SkipInLine(l, t);
    SkipInLine(l[1..], t);
    match l[0].kind {
      case RewriteKw => RewriteInLine(l, t, s); RewriteEndsLine(l, s);
      case VarKw => FieldsInLine(l, t, s, "VAR"); FieldsEndLine(l, s, "VAR");
      case LocalKw => FieldsInLine(l, t, s, "LOCAL"); FieldsEndLine(l, s, "LOCAL");
      case MapfileKw => FieldsInLine(l, t, s, "MAPFILE"); FieldsEndLine(l, s, "MAPFILE");
      case MaplocalKw => FieldsInLine(l, t, s, "MAPLOCAL"); FieldsEndLine(l, s, "MAPLOCAL");
      case PostconfKw => PostconfDirective(l, t, s, false);
      case PostconfdKw => PostconfDirective(l, t, s, true);
      case RestartKw =>
        WordsInLine(l[1..], t);
        SkipInLine(Words(l[1..]).rest, t);
      case Identifier => FieldsInLine(l, t, s, ""); FieldsEndLine(l, s, "");
      case _ =>
    }
  }

  lemma {:induction false} PostconfDirective(l: Tokens, t: Tokens, s: Section, drop: bool)
    requires IsLine(l) && l != [] && AtNewline(t)
    ensures !AtEnd(l) && !AtEnd(l + t)
    ensures Postconf(l + t, s, drop) == Then(Postconf(l, s, drop), t)
    ensures Postconf(l, s, drop).Good? ==> Postconf(l, s, drop).rest == []
  {
    hide PostconfLine, SkipToNewline, IsLine, WithLine;
    PostconfInLine(l, t, !drop);
    SkipInLine(PostconfLine(l, !drop).rest, t);
    NothingBefore(t);
  }

  lemma {:induction false} RewriteEndsLine(l: Tokens, s: Section)
    requires IsLine(l) && l != []
    ensures !AtEnd(l) && (Rewrite(l, s).Good? ==> Rewrite(l, s).rest == [])
  {
    hide ReadPath, SkipToNewline, Mode, IsLine;
    var t := [Token(Newline, "")];
    TailIsLine(l);
    PathInLine(l[1..], t);
    PathInLine(ReadPath(l[1..]).rest, t);
    var dest := ReadPath(ReadPath(l[1..]).rest);
    ModeInLine(dest.rest, t);
    SkipInLine(Mode(dest.rest).rest, t);
  }

  lemma {:induction false} FieldsEndLine(l: Tokens, s: Section, typ: string)
    requires IsLine(l) && l != []
    ensures !AtEnd(l) && (RequiredVar(l, s, typ).Good? ==> RequiredVar(l, s, typ).rest == [])
    ensures Ldap(l, s).Good? ==> Ldap(l, s).rest == []
  {
    hide Value, SkipToNewline, HasPrefix, IsLine;
    var t := [Token(Newline, "")];
    TailIsLine(l);
    if l[1..] != [] {
      TailIsLine(l[1..]);
      SkipInLine(l[1..][1..], t);
      ValueInLine(l[1..][1..], t);
      SkipInLine(Value(l[1..][1..]).rest, t);
    }
  }

  /** A line of an if block is read as one, whatever follows it. */
  lemma {:induction false} BlockLineInLine(l: Tokens, t: Tokens, b: Block)
    requires IsLine(l) && l != [] && AtNewline(t)
    ensures !AtEnd(l) && !AtNewline(l) && !AtEnd(l + t) && !AtNewline(l + t)
    ensures BlockLine(l + t, b) == Then(BlockLine(l, b), t) && IsLine(BlockLine(l, b).rest)
    ensures BlockLine(l, b).Good? ==> BlockLine(l, b).rest == [] || BlockLine(l, b).rest[0].kind == Identifier
  {
    hide PostconfLine, SkipToNewline, Registered, IsLine, BlockVar;
    CurOf(l, t);
    TailIsLine(l);
    NothingBefore(t);
    NothingIsLine();
    if l[0].kind == PostconfKw || l[0].kind == PostconfdKw {
      PostconfInLine(l, t, false);
      SkipInLine(PostconfLine(l, false).rest, t);
    } else if l[0].kind == VarKw {
      BlockVarInLine(l, t, b, "VAR");
    } else if l[0].kind == LocalKw {
      BlockVarInLine(l, t, b, "LOCAL");
    } else {
      SkipInLine(l, t);
    }
  }

  lemma {:induction false} BlockVarInLine(l: Tokens, t: Tokens, b: Block, typ: string)
    requires IsLine(l) && l != [] && AtNewline(t)
    ensures !AtEnd(l) && !AtEnd(l + t)
    ensures BlockVar(l + t, b, typ) == Then(BlockVar(l, b, typ), t) && IsLine(BlockVar(l, b, typ).rest)
    ensures BlockVar(l, b, typ).Good? ==> BlockVar(l, b, typ).rest != [] && BlockVar(l, b, typ).rest[0].kind == Identifier
  {
    hide IsLine;
    CurOf(l, t);
    TailIsLine(l);
    if |l| == 1 { NothingBefore(t); } else { CurOf(l[1..], t); }
  }

  lemma {:induction false} NothingIsLine()
    ensures IsLine([])
  {}

  /////////// Lines of a block, lines of a section ///////////

  const NEWLINE: Tokens := [Token(Newline, "\n")]

  function Text(lines: seq<Tokens>): Tokens {
    if lines == [] then [] else lines[0] + NEWLINE + Text(lines[1..])
  }

  predicate Starts(l: Tokens, kinds: set<Kind>) {
    l != [] && l[0].kind in kinds
  }

  /** Lines of which none starts with one of the kinds. */
  predicate Plain(lines: seq<Tokens>, kinds: set<Kind>) {
    forall k :: 0 <= k < |lines| ==> IsLine(lines[k]) && !Starts(lines[k], kinds)
  }

  lemma {:induction false} EmptyText()
    ensures Text([]) == []
  {}

  lemma {:induction false} TextStep(lines: seq<Tokens>, t: Tokens)
    requires lines != []
    ensures Text(lines) + t == lines[0] + (NEWLINE + (Text(lines[1..]) + t))
  {}

  /** What the lines of a block add to it. */
  function BlockOf(lines: seq<Tokens>, b: Block): Parsed<Block>
    requires Plain(lines, {})
  {
    if lines == [] then Good(b, [])
    else if lines[0] == [] then BlockOf(lines[1..], b)
    else
      TailIsLine(lines[0]);
      var l := BlockLine(lines[0], b);
      if l.Bad? then Bad(l.error, []) else BlockOf(lines[1..], l.value)
  }

  /** What the lines of a section add to it. */
  function SectionOf(lines: seq<Tokens>, s: Section): Parsed<Section>
    requires Plain(lines, {IfKw})
  {
    if lines == [] then Good(s, [])
    else if lines[0] == [] then SectionOf(lines[1..], s)
    else
      var d := Directive(lines[0], s);
      if d.Bad? then Bad(d.error, []) else SectionOf(lines[1..], d.value)
  }

  /** The same value and the same tokens left, or the same error. */
  ghost predicate Same<T(!new)>(p: Parsed<T>, q: Parsed<T>) {
    if p.Good? then p == q else q.Bad? && p.error == q.error
  }

  /** One line of a block. */
  lemma {:induction false} OneBlockLine(l: Tokens, t: Tokens, b: Block)
    requires IsLine(l) && l != [] && l[0].kind !in {FiKw, SectionKw}
    ensures !AtEnd(l) && !AtNewline(l)
    ensures var p := BlockLine(l, b);
            if p.Bad? then BlockBody(l + (NEWLINE + t), b).Bad? && BlockBody(l + (NEWLINE + t), b).error == p.error
            else BlockBody(l + (NEWLINE + t), b) == BlockBody(t, p.value)
  {
    hide BlockLine, SkipToNewline;
    var n := NEWLINE + t;
    assert n[1..] == t;
    CurOf(l, n);
    BlockLineInLine(l, n, b);
    var p := BlockLine(l, b);
    if p.Good? {
      if p.rest == [] {
        NothingBefore(n);
      } else {
        RestOfLine(p.rest, n, p.value);
      }
    }
  }

  /** The rest of a VAR or LOCAL line of a block is ignored. */
  lemma {:induction false} RestOfLine(l: Tokens, n: Tokens, b: Block)
    requires IsLine(l) && l != [] && l[0].kind == Identifier && AtNewline(n)
    ensures BlockBody(l + n, b) == BlockBody(n[1..], b)
  {
    hide SkipToNewline;
    CurOf(l, n);
    SkipInLine(l, n);
    assert BlockLine(l + n, b) == Good(b, n);
  }

  lemma {:induction false} BlockLines(lines: seq<Tokens>, t: Tokens, b: Block)
    requires Plain(lines, {FiKw, SectionKw})
    ensures var p := BlockOf(lines, b);
            if p.Bad? then BlockBody(Text(lines) + t, b).Bad? && BlockBody(Text(lines) + t, b).error == p.error
            else BlockBody(Text(lines) + t, b) == BlockBody(t, p.value)
    decreases |lines|
  {
    hide BlockBody, BlockLine, IsLine, Text;
    if lines == [] {
      assert Text(lines) == [] by { EmptyText(); }
      NothingBefore(t);
    } else {
      var rest := Text(lines[1..]) + t;
      TextStep(lines, t);
      if lines[0] == [] {
        NothingBefore(NEWLINE + rest);
        EmptyBlockLine(rest, b);
        BlockLines(lines[1..], t, b);
      } else {
        OneBlockLine(lines[0], rest, b);
        var l := BlockLine(lines[0], b);
        if l.Good? { BlockLines(lines[1..], t, l.value); }
      }
    }
  }

  lemma {:induction false} EmptyBlockLine(t: Tokens, b: Block)
    ensures BlockBody(NEWLINE + t, b) == BlockBody(t, b)
  {
    assert (NEWLINE + t)[1..] == t;
  }

  lemma {:induction false} OneDirective(l: Tokens, t: Tokens, s: Section)
    requires IsLine(l) && l != [] && l[0].kind !in {IfKw, SectionKw}
    ensures var p := Directive(l, s);
            if p.Bad? then Body(l + (NEWLINE + t), s).Bad? && Body(l + (NEWLINE + t), s).error == p.error
            else Body(l + (NEWLINE + t), s) == Body(t, p.value)
  {
    hide Directive;
    var n := NEWLINE + t;
    assert n[1..] == t;
    CurOf(l, n);
    TailIsLine(l);
    DirectiveInLine(l, n, s);
    NothingBefore(n);
  }

  lemma {:induction false} SectionLines(lines: seq<Tokens>, t: Tokens, s: Section)
    requires Plain(lines, {IfKw, SectionKw})
    ensures Plain(lines, {IfKw})
    ensures var p := SectionOf(lines, s);
            if p.Bad? then Body(Text(lines) + t, s).Bad? && Body(Text(lines) + t, s).error == p.error
            else Body(Text(lines) + t, s) == Body(t, p.value)
    decreases |lines|
  {
    hide Body, Directive, IsLine, Text;
    if lines == [] {
      assert Text(lines) == [] by { EmptyText(); }
      NothingBefore(t);
    } else {
      var rest := Text(lines[1..]) + t;
      TextStep(lines, t);
      if lines[0] == [] {
        NothingBefore(NEWLINE + rest);
        EmptyLine(rest, s);
        SectionLines(lines[1..], t, s);
      } else {
        OneDirective(lines[0], rest, s);
        var d := Directive(lines[0], s);
        if d.Good? { SectionLines(lines[1..], t, d.value); }
      }
    }
  }

  lemma {:induction false} EmptyLine(t: Tokens, s: Section)
    ensures Body(NEWLINE + t, s) == Body(t, s)
  {
    assert (NEWLINE + t)[1..] == t;
  }

  /////////// Whole if blocks ///////////

  lemma {:induction false} HeaderInLine(l: Tokens, t: Tokens)
    requires IsLine(l) && l != [] && AtNewline(t)
    ensures !AtEnd(l) && !AtEnd(l + t)
    ensures BlockHeader(l + t) == Then(BlockHeader(l), t) && IsLine(BlockHeader(l).rest)
  {
    hide IsLine, BlockHeader;
    CurOf(l, t);
    TailIsLine(l);
    if |l| <= 2 { ShortHeader(l, t); } else { LongHeader(l, t); }
  }

  lemma {:induction false} HeaderFails(r: Tokens)
    requires !AtEnd(r) && (Cur(r[1..]).kind in {ServiceKw, VarKw} ==> Cur(r[1..][1..]).kind != Identifier)
    ensures BlockHeader(r) == if Cur(r[1..]).kind in {ServiceKw, VarKw} then Bad(Expected("condition key"), r[1..][1..])
                              else Bad(Expected("SERVICE or VAR"), r[1..])
  {
    hide Upper, HasPrefix;
  }

  lemma {:induction false} ShortHeader(l: Tokens, t: Tokens)
    requires IsLine(l) && 1 <= |l| <= 2 && AtNewline(t) && !AtEnd(l) && !AtEnd(l + t)
    ensures BlockHeader(l + t) == Then(BlockHeader(l), t) && IsLine(BlockHeader(l).rest)
  {
    hide BlockHeader, IsLine;
    CurOf(l, t);
    TailIsLine(l);
    NothingBefore(t);
    if |l| == 2 {
      CurOf(l[1..], t);
      TailIsLine(l[1..]);
    }
    HeaderFails(l);
    HeaderFails(l + t);
  }

  lemma {:induction false} LongHeader(l: Tokens, t: Tokens)
    requires IsLine(l) && |l| >= 3 && AtNewline(t) && !AtEnd(l) && !AtEnd(l + t)
    ensures BlockHeader(l + t) == Then(BlockHeader(l), t) && IsLine(BlockHeader(l).rest)
  {
    hide IsLine, Upper, HasPrefix;
    CurOf(l, t);
    TailIsLine(l);
    CurOf(l[1..], t);
    TailIsLine(l[1..]);
    ThirdOf(l, t);
  }

  lemma {:induction false} ThirdOf(l: Tokens, t: Tokens)
    requires IsLine(l) && |l| >= 3
    ensures Cur((l + t)[1..][1..]) == (l + t)[1..][1..][0] == l[1..][1..][0] == l[2]
    ensures (l + t)[1..][1..][1..] == l[1..][1..][1..] + t && IsLine(l[1..][1..][1..])
  {}

  /** The block of an if with its lines, up to the fi. */
  function WholeBlock(h: Tokens, lines: seq<Tokens>): Parsed<Block>
    requires IsLine(h) && h != [] && Plain(lines, {})
  {
    TailIsLine(h);
    var p := BlockHeader(h);
    if p.Bad? then p else BlockOf(lines, p.value)
  }

  /** A whole if block is one directive. */
  lemma {:induction false} ConditionalOfLines(h: Tokens, lines: seq<Tokens>, fi: Tokens, t: Tokens, s: Section)
    requires IsLine(h) && Starts(h, {IfKw}) && Plain(lines, {FiKw, SectionKw}) && IsLine(fi) && Starts(fi, {FiKw})
    ensures var r, b := h + (NEWLINE + (Text(lines) + (fi + (NEWLINE + t)))), WholeBlock(h, lines);
            if b.Bad? then Directive(r, s).Bad? && Directive(r, s).error == b.error
            else Directive(r, s) == Good(s.(conditionals := s.conditionals + [b.value]), NEWLINE + t)
  {
    hide BlockBody, BlockHeader, BlockOf, SkipToNewline, IsLine, Text;
    var last := fi + (NEWLINE + t);
    var body := Text(lines) + last;
    var n := NEWLINE + body;
    CurOf(h, n);
    HeaderInLine(h, n);
    var p := BlockHeader(h);
    if p.Good? {
      SkipInLine(p.rest, n);
      EmptyBlockLine(body, p.value);
      BlockLines(lines, last, p.value);
      if BlockOf(lines, p.value).Good? { FiEnds(fi, t, BlockOf(lines, p.value).value); }
    }
  }

  lemma {:induction false} BlockOfLines(h: Tokens, lines: seq<Tokens>, fi: Tokens, t: Tokens, s: Section)
    requires IsLine(h) && Starts(h, {IfKw}) && Plain(lines, {FiKw, SectionKw}) && IsLine(fi) && Starts(fi, {FiKw})
    ensures var r, b := h + (NEWLINE + (Text(lines) + (fi + (NEWLINE + t)))), WholeBlock(h, lines);
            if b.Bad? then Body(r, s).Bad? && Body(r, s).error == b.error
            else Body(r, s) == Body(t, s.(conditionals := s.conditionals + [b.value]))
  {
    hide Directive, WholeBlock, IsLine, Text;
    CurOf(h, NEWLINE + (Text(lines) + (fi + (NEWLINE + t))));
    ConditionalOfLines(h, lines, fi, t, s);
    var b := WholeBlock(h, lines);
    if b.Good? { EmptyLine(t, s.(conditionals := s.conditionals + [b.value])); }
  }

  lemma {:induction false} FiEnds(fi: Tokens, t: Tokens, b: Block)
    requires IsLine(fi) && Starts(fi, {FiKw})
    ensures BlockBody(fi + (NEWLINE + t), b) == Good(b, NEWLINE + t)
  {
    hide SkipToNewline;
    CurOf(fi, NEWLINE + t);
    SkipInLine(fi, NEWLINE + t);
  }

  /** An if header inside a block adds nothing to it. */
  lemma {:induction false} InnerHeaderIgnored(a: seq<Tokens>, h: Tokens, c: seq<Tokens>, b: Block)
    requires Plain(a, {}) && Plain(c, {}) && IsLine(h) && Starts(h, {IfKw})
    ensures Plain(a + [h] + c, {}) && Plain(a + c, {}) && BlockOf(a + [h] + c, b) == BlockOf(a + c, b)
    decreases |a|
  {
    hide BlockLine, IsLine;
    if a == [] {
      assert a + [h] + c == [h] + c && a + c == c;
      assert ([h] + c)[1..] == c;
      HeaderLine(h, b);
    } else {
      assert (a + [h] + c)[1..] == a[1..] + [h] + c && (a + c)[1..] == a[1..] + c;
      if a[0] == [] {
        InnerHeaderIgnored(a[1..], h, c, b);
      } else {
        TailIsLine(a[0]);
        var l := BlockLine(a[0], b);
        InnerHeaderIgnored(a[1..], h, c, if l.Good? then l.value else b);
      }
    }
  }

  lemma {:induction false} HeaderLine(h: Tokens, b: Block)
    requires IsLine(h) && Starts(h, {IfKw})
    ensures !AtEnd(h) && !AtNewline(h) && BlockLine(h, b) == Good(b, [])
  {
    SkipInLine(h, NEWLINE);
  }

  lemma {:induction false} FiLine(fi: Tokens, s: Section)
    requires IsLine(fi) && Starts(fi, {FiKw})
    ensures Directive(fi, s) == Good(s, [])
  {
    hide SkipToNewline;
    SkipInLine(fi, NEWLINE);
  }

  /** A fi outside a block adds nothing to its section. */
  lemma {:induction false} OuterFiIgnored(c: seq<Tokens>, fi: Tokens, s: Section)
    requires Plain(c, {IfKw}) && IsLine(fi) && Starts(fi, {FiKw})
    ensures Plain(c + [fi], {IfKw}) && SectionOf(c + [fi], s) == SectionOf(c, s)
    decreases |c|
  {
    hide IsLine, Directive;
    if c == [] {
      FiLine(fi, s);
      assert c + [fi] == [fi] && [fi][1..] == [];
      assert SectionOf([], s) == Good(s, []);
    } else {
      assert (c + [fi])[1..] == c[1..] + [fi];
      if c[0] == [] {
        OuterFiIgnored(c[1..], fi, s);
      } else {
        var d := Directive(c[0], s);
        OuterFiIgnored(c[1..], fi, if d.Good? then d.value else s);
      }
    }
  }

  /** An if block, the lines after it, and what follows. */
  function IfThen(h: Tokens, lines: seq<Tokens>, fi: Tokens, after: seq<Tokens>, t: Tokens): Tokens {
    h + (NEWLINE + (Text(lines) + (fi + (NEWLINE + (Text(after) + t)))))
  }

  lemma {:induction false} IfThenMeans(h: Tokens, lines: seq<Tokens>, fi: Tokens, after: seq<Tokens>, t: Tokens, s: Section)
    requires IsLine(h) && Starts(h, {IfKw}) && Plain(lines, {FiKw, SectionKw}) && IsLine(fi) && Starts(fi, {FiKw})
    requires Plain(after, {IfKw, SectionKw})
    ensures var p, b := Body(IfThen(h, lines, fi, after, t), s), WholeBlock(h, lines);
            if b.Bad? then p.Bad? && p.error == b.error
            else
              var q := SectionOf(after, s.(conditionals := s.conditionals + [b.value]));
              if q.Bad? then p.Bad? && p.error == q.error else p == Body(t, q.value)
  {
    hide WholeBlock, SectionOf, Body, Text, IsLine;
    BlockOfLines(h, lines, fi, Text(after) + t, s);
    var b := WholeBlock(h, lines);
    if b.Good? { SectionLines(after, t, s.(conditionals := s.conditionals + [b.value])); }
  }

  /**
   * An if inside an if: the inner header is ignored and the inner lines belong to the outer block, the first fi ends
   * that block, the lines after it are directives of the section, and the outer fi is ignored.
   */
  lemma {:induction false} NestedIf(
    outer: Tokens, a: seq<Tokens>, inner: Tokens, b: seq<Tokens>, fi: Tokens, c: seq<Tokens>, outerFi: Tokens, t: Tokens,
    s: Section)
    requires IsLine(outer) && Starts(outer, {IfKw}) && IsLine(inner) && Starts(inner, {IfKw})
    requires IsLine(fi) && Starts(fi, {FiKw}) && IsLine(outerFi) && Starts(outerFi, {FiKw})
    requires Plain(a, {FiKw, SectionKw}) && Plain(b, {FiKw, SectionKw}) && Plain(c, {IfKw, SectionKw})
    ensures Same(Body(IfThen(outer, a + [inner] + b, fi, c + [outerFi], t), s), Body(IfThen(outer, a + b, fi, c, t), s))
  {
    hide Body, IfThen, BlockOf, SectionOf, IsLine;
    IfThenMeans(outer, a + [inner] + b, fi, c + [outerFi], t, s);
    IfThenMeans(outer, a + b, fi, c, t, s);
    TailIsLine(outer);
    if BlockHeader(outer).Good? { InnerHeaderIgnored(a, inner, b, BlockHeader(outer).value); }
    var whole := WholeBlock(outer, a + b);
    if whole.Good? { OuterFiIgnored(c, outerFi, s.(conditionals := s.conditionals + [whole.value])); }
  }
}
