/** Which lines the grammar rejects, and what a rejected line costs. */
module Rejecting {
  import opened Options
  import opened Lexing
  import opened Parsing
  import opened Lines
  import ParsingFacts
  import Printing

  /////////// Rejected lines ///////////

  ghost predicate NoWord(l: Tokens, k: nat) {
    k >= |l| || l[k].kind != Identifier
  }

  /** A lookup type at position 2 and no name after it. */
  ghost predicate NoName(l: Tokens, allow: bool) {
    && |l| > 2 && LookupType(l[2], allow).Some?
    && (|l| == 3 || l[3].kind !in {Identifier, Str} ||
        (l[3].text == "" && !(l[2].kind == FileKw && l[3].kind == Identifier && |l| > 4 && IsPath(l[4]))))
  }

  /** A REWRITE without a source, a destination, or the value of its MODE. */
  ghost predicate NoTarget(l: Tokens)
    requires l != []
  {
    var source := ReadPath(l[1..]);
    var dest := ReadPath(source.rest);
    || source.value == "" || dest.value == ""
    || (Cur(dest.rest).kind == ModeKw && Cur(dest.rest[1..]).kind !in {Identifier, Str})
  }

  /** What a line of a section lacks, by the directive it starts with. */
  ghost predicate Malformed(l: Tokens)
    requires l != []
  {
    match l[0].kind
    case RewriteKw => NoTarget(l)
    case VarKw => NoWord(l, 1)
    case LocalKw => NoWord(l, 1)
    case MapfileKw => NoWord(l, 1)
    case MaplocalKw => NoWord(l, 1)
    case PostconfKw => NoWord(l, 1) || NoName(l, true)
    case PostconfdKw => NoWord(l, 1) || NoName(l, false)
    case RestartKw => false
    case ProxygenKw => false
    case FiKw => false
    case Identifier => Upper(l[0].text) != "LDAP" || NoWord(l, 1)
    case _ => true
  }

  lemma {:induction false} LineRejectedIff(l: Tokens, allow: bool)
    requires IsLine(l) && l != [] && !AtEnd(l)
    ensures PostconfLine(l, allow).Bad? <==> NoWord(l, 1) || NoName(l, allow)
  {
    hide Literal, FormatLookup, LookupType, IsPath;
    if |l| > 2 && l[1].kind == Identifier {
      var v := l[1..][1..];
      assert v == l[2..] && v[0] == l[2] && v[1..] == l[3..];
      TypedWord(l[2], allow);
      assert |l| > 4 ==> l[3..][1..][0] == l[3..][1] == l[4];
      assert |l| == 4 ==> l[3..][1..] == [];
      NoPathAtEnd();
    }
  }

  lemma {:induction false} NoPathAtEnd()
    ensures !IsPath(Cur([])) && forall t :: IsPath(t) ==> t.text != ""
  {}

  lemma {:induction false} TypedWord(t: Token, allow: bool)
    ensures LookupType(t, allow).Some? && IsKeyword(t) ==> (LookupType(t, allow).value == "FILE" <==> t.kind == FileKw)
    ensures t.kind == FileKw ==> LookupType(t, allow).Some? && IsKeyword(t)
  {}

  /** A line of a section is rejected exactly when it is malformed. */
  lemma {:induction false} RejectedIff(l: Tokens, s: Section)
    requires IsLine(l) && l != [] && l[0].kind != IfKw
    ensures Directive(l, s).Bad? <==> Malformed(l)
  {
    hide PostconfLine, ReadPath, Value, Words, SkipToNewline, Upper, NoName, IsLine;
    TailIsLine(l);
    if l[0].kind == PostconfKw {
      LineRejectedIff(l, true);
    } else if l[0].kind == PostconfdKw {
      LineRejectedIff(l, false);
    }
    assert Cur(l[1..]).kind == Identifier <==> !NoWord(l, 1);
  }

  /** What a line of an if block lacks; lines of other kinds are ignored. */
  ghost predicate MalformedInBlock(l: Tokens)
    requires l != []
  {
    match l[0].kind
    case VarKw => NoWord(l, 1)
    case LocalKw => NoWord(l, 1)
    case PostconfKw => NoWord(l, 1) || NoName(l, false)
    case PostconfdKw => NoWord(l, 1) || NoName(l, false)
    case _ => false
  }

  lemma {:induction false} BlockLineRejectedIff(l: Tokens, b: Block)
    requires IsLine(l) && l != []
    ensures !AtEnd(l) && !AtNewline(l) && (BlockLine(l, b).Bad? <==> MalformedInBlock(l))
  {
    hide PostconfLine, SkipToNewline, NoName, IsLine, Registered;
    TailIsLine(l);
    LineRejectedIff(l, false);
    assert Cur(l[1..]).kind == Identifier <==> !NoWord(l, 1);
  }

  /** An if header needs SERVICE or VAR and a key. */
  lemma {:induction false} IfRejectedIff(l: Tokens)
    requires IsLine(l) && l != [] && !AtEnd(l)
    ensures BlockHeader(l).Bad? <==> |l| < 2 || l[1].kind !in {ServiceKw, VarKw} || NoWord(l, 2)
  {
    hide Upper, HasPrefix;
    assert |l| > 1 ==> l[1..][0] == l[1];
    assert |l| > 2 ==> l[1..][1..][0] == l[2];
  }

  lemma {:induction false} UnclosedBody(lines: seq<Tokens>, t: Tokens, b: Block)
    requires Plain(lines, {FiKw, SectionKw}) && (AtEnd(t) || Cur(t).kind == SectionKw)
    ensures BlockBody(NEWLINE + (Text(lines) + t), b).Bad?
  {
    hide Text, IsLine, BlockOf;
    EmptyBlockLine(Text(lines) + t, b);
    BlockLines(lines, t, b);
  }

  /** A block without a fi before the next section or the end is rejected. */
  lemma {:induction false} UnclosedBlock(h: Tokens, lines: seq<Tokens>, t: Tokens, s: Section)
    requires IsLine(h) && Starts(h, {IfKw}) && Plain(lines, {FiKw, SectionKw}) && (AtEnd(t) || Cur(t).kind == SectionKw)
    ensures Body(h + (NEWLINE + (Text(lines) + t)), s).Bad?
  {
    hide BlockHeader, SkipToNewline, IsLine, Text, BlockBody;
    var n := NEWLINE + (Text(lines) + t);
    CurOf(h, n);
    HeaderInLine(h, n);
    var p := BlockHeader(h);
    if p.Good? {
      SkipInLine(p.rest, n);
      UnclosedBody(lines, t, p.value);
    }
  }

  /////////// What a rejected line costs ///////////

  /** No section starts inside the lines. */
  ghost predicate NoSection(lines: seq<Tokens>) {
    Plain(lines, {IfKw, SectionKw}) && forall k, j :: 0 <= k < |lines| && 0 <= j < |lines[k]| ==> lines[k][j].kind != SectionKw
  }

  lemma {:induction false} RecoveryPasses(a: Tokens, t: Tokens)
    requires (forall j :: 0 <= j < |a| ==> a[j].kind != SectionKw && !IsEnd(a[j])) && (AtEnd(t) || Cur(t).kind == SectionKw)
    ensures SkipToSection(a + t) == t
    decreases |a|
  {
    if a == [] {
      NothingBefore(t);
    } else {
      CurOf(a, t);
      RecoveryPasses(a[1..], t);
    }
  }

  lemma {:induction false} NoSectionInText(lines: seq<Tokens>)
    requires NoSection(lines)
    ensures forall j :: 0 <= j < |Text(lines)| ==> Text(lines)[j].kind != SectionKw && !IsEnd(Text(lines)[j])
    decreases |lines|
  {
    if lines != [] {
      assert NoSection(lines[1..]);
      NoSectionInText(lines[1..]);
    }
  }

  /** After a rejected line the parser resumes at the next section. */
  lemma {:induction false} ResumesAfter(lines: seq<Tokens>, t: Tokens, s: Section)
    requires NoSection(lines) && (AtEnd(t) || Cur(t).kind == SectionKw) && SectionOf(lines, s).Bad?
    ensures Body(Text(lines) + t, s).Bad? && SkipToSection(Body(Text(lines) + t, s).rest) == t
    decreases |lines|
  {
    hide Directive, Body, SkipToSection, Text;
    var rest := Text(lines[1..]) + t;
    TextStep(lines, t);
    assert NoSection(lines[1..]);
    if lines[0] == [] {
      NothingBefore(NEWLINE + rest);
      EmptyLine(rest, s);
      ResumesAfter(lines[1..], t, s);
    } else {
      var d := Directive(lines[0], s);
      if d.Good? {
        OneDirective(lines[0], rest, s);
        ResumesAfter(lines[1..], t, d.value);
      } else {
        RejectedHere(lines[0], lines[1..], t, s);
      }
    }
  }

  lemma {:induction false} RejectedHere(l: Tokens, lines: seq<Tokens>, t: Tokens, s: Section)
    requires IsLine(l) && l != [] && l[0].kind !in {IfKw, SectionKw} && (forall j :: 0 <= j < |l| ==> l[j].kind != SectionKw)
    requires NoSection(lines) && (AtEnd(t) || Cur(t).kind == SectionKw) && Directive(l, s).Bad?
    ensures var r := l + (NEWLINE + (Text(lines) + t));
            Body(r, s).Bad? && SkipToSection(Body(r, s).rest) == t
  {
    hide Directive, SkipToSection, Text;
    var n := NEWLINE + (Text(lines) + t);
    CurOf(l, n);
    TailIsLine(l);
    DirectiveInLine(l, n, s);
    var left := Directive(l, s).rest;
    LeftIsLine(l, s);
    NoSectionInText(lines);
    assert left + n == left + NEWLINE + Text(lines) + t;
    RecoveryPasses(left + NEWLINE + Text(lines), t);
  }

  /** What a rejected line leaves is the end of that line. */
  lemma {:induction false} LeftIsLine(l: Tokens, s: Section)
    requires IsLine(l) && l != [] && (forall j :: 0 <= j < |l| ==> l[j].kind != SectionKw)
    ensures var left := Directive(l, s).rest; forall j :: 0 <= j < |left| ==> left[j].kind != SectionKw && !IsEnd(left[j])
  {
    hide Directive;
    TailIsLine(l);
    ParsingFacts.DirectiveEnds(l, s);
  }

  /** One broken section costs only itself: the sections before and after it are read, and one error is reported. */
  lemma {:induction false} BrokenSectionOnly(
    c: Config, before: seq<string>, name: string, depends: set<string>, lines: seq<Tokens>, after: seq<string>, t: Tokens)
    requires Printing.Listed(before, c) && Printing.Listed(after, c) && AtEnd(t)
    requires forall sn :: sn in before || sn in after ==> Printing.Printable(c[sn])
    requires NoSection(lines) && SectionOf(lines, NO_SECTION.(depends := depends)).Bad?
    ensures var broken := Printing.HeaderLine(name, depends) + (NEWLINE + (Text(lines) + Printing.Print(c, after, t)));
            var e := SectionOf(lines, NO_SECTION.(depends := depends)).error;
            File(Printing.Print(c, before, broken), map[], []) == (Printing.Over(Printing.Over(map[], c, before), c, after), [e])
  {
    hide Printing.Print, Printing.Printable, SectionOf, Text, Body, SkipToSection, OneSection, Printing.HeaderLine, Header;
    var s := NO_SECTION.(depends := depends);
    var rest := Printing.Print(c, after, t);
    var body := Text(lines) + rest;
    var broken := Printing.HeaderLine(name, depends) + (NEWLINE + body);
    Printing.PrintedSectionsRead(c, after, t, Printing.Over(map[], c, before), [SectionOf(lines, s).error]);
    Printing.HeaderStarts(name, depends, NEWLINE + body);
    Printing.HeaderReads(name, depends, body);
    Printing.PrintedSectionsRead(c, before, broken, map[], []);
    ResumesAfter(lines, rest, s);
    SectionLines(lines, rest, s);
    BrokenTurn(broken, body, name, s, Printing.Over(map[], c, before));
    assert [] + [SectionOf(lines, s).error] == [SectionOf(lines, s).error];
  }

  lemma {:induction false} BrokenTurn(r: Tokens, body: Tokens, name: string, s: Section, acc: Config)
    requires Cur(r).kind == SectionKw && Header(r) == Good((name, s), body) && Body(body, s).Bad?
    ensures File(r, acc, []) == File(SkipToSection(Body(body, s).rest), acc, [] + [Body(body, s).error])
  {
    hide Header, Body, SkipToSection;
  }
}
