/** Where an if block ends, and which variables a parsed section depends on. */
module ParsingFacts {
  import opened Options
  import opened Lexing
  import opened Parsing
  import Planner
  import PlannerFacts

  /////////// An if block ends at its first fi ///////////

  /** `q` is a later point of the line `r` starts in. */
  ghost predicate SameLine(r: Tokens, q: Tokens) {
    && |q| <= |r| && q == r[|r| - |q|..]
    && forall j :: 0 <= j < |r| - |q| ==> r[j].kind != Newline
  }

  lemma {:induction false} SameLineTransitive(r: Tokens, q: Tokens, p: Tokens)
    requires SameLine(r, q) && SameLine(q, p)
    ensures SameLine(r, p)
  {
    var n := |r| - |q|;
    forall j | 0 <= j < |r| - |p| ensures r[j].kind != Newline {
      if j >= n { assert r[j] == q[j - n]; }
    }
  }

  lemma {:induction false} SameLineHere(r: Tokens)
    ensures SameLine(r, r)
  {}

  lemma {:induction false} NextStays(r: Tokens)
    requires r != [] && r[0].kind != Newline
    ensures SameLine(r, r[1..])
  {}

  lemma {:induction false} SkipStays(r: Tokens)
    ensures SameLine(r, SkipToNewline(r))
  {
    hide SameLine;
    SameLineHere(r);
    if !AtNewline(r) && !AtEnd(r) {
      NextStays(r);
      SkipStays(r[1..]);
      SameLineTransitive(r, r[1..], SkipToNewline(r[1..]));
    }
  }

  lemma {:induction false} PathStays(r: Tokens)
    ensures SameLine(r, ReadPath(r).rest)
  {}

  lemma {:induction false} PrefixedStays(r: Tokens, prefix: string)
    requires r != [] && r[0].kind != Newline
    ensures SameLine(r, Prefixed(prefix, r[1..]).rest)
  {
    hide SameLine;
    NextStays(r);
    if Cur(r[1..]).kind == Identifier {
      NextStays(r[1..]);
      SameLineTransitive(r, r[1..], r[1..][1..]);
    }
  }

  lemma {:induction false} FileStays(r: Tokens)
    requires r != [] && r[0].kind != Newline
    ensures SameLine(r, ReadPath(r[1..]).rest)
  {
    hide SameLine, ReadPath;
    NextStays(r);
    PathStays(r[1..]);
    SameLineTransitive(r, r[1..], ReadPath(r[1..]).rest);
  }

  lemma {:induction false} PartStays(r: Tokens)
    ensures SameLine(r, Part(r).rest)
  {
    hide ReadPath, SameLine, Prefixed;
    match Cur(r).kind {
      case VarKw => PrefixedStays(r, "VAR");
      case LocalKw => PrefixedStays(r, "LOCAL");
      case MaplocalKw => PrefixedStays(r, "MAPLOCAL");
      case FileKw => FileStays(r);
      case Identifier => NextStays(r);
      case Str => NextStays(r);
      case _ => SameLineHere(r);
    }
  }

  lemma {:induction false} PartsStay(r: Tokens)
    ensures SameLine(r, Parts(r).rest)
    decreases |r|
  {
    hide Part, SameLine;
    PartStays(r);
    if |Part(r).rest| < |r| {
      PartsStay(Part(r).rest);
      SameLineTransitive(r, Part(r).rest, Parts(Part(r).rest).rest);
    } else {
      SameLineHere(r);
    }
  }

  lemma {:induction false} LiteralStays(r: Tokens, allow: bool)
    ensures SameLine(r, Literal(r, allow).rest)
  {
    hide Parts, SameLine;
    PartsStay(r);
    if Cur(r).kind == MaplocalKw {
      NextStays(r);
      PartsStay(r[1..]);
      SameLineTransitive(r, r[1..], Parts(r[1..]).rest);
    }
  }

  lemma {:induction false} LineStays(r: Tokens, allow: bool)
    requires !AtEnd(r) && !AtNewline(r)
    ensures SameLine(r, PostconfLine(r, allow).rest)
  {
    hide SameLine, Literal, ReadPath, LookupType, FormatLookup;
    NextStays(r);
    var k := r[1..];
    if Cur(k).kind == Identifier {
      NextStays(k);
      var v := k[1..];
      SameLineTransitive(r, k, v);
      if !AtNewline(v) && !AtEnd(v) {
        LiteralStays(v, allow);
        SameLineTransitive(r, v, Literal(v, allow).rest);
        NextStays(v);
        SameLineTransitive(r, v, v[1..]);
        KeyStays(r, v[1..]);
      }
    }
  }

  lemma {:induction false} KeyStays(r: Tokens, n: Tokens)
    requires SameLine(r, n)
    ensures SameLine(r, ReadPath(n).rest)
    ensures Cur(n).kind == Identifier || Cur(n).kind == Str ==> SameLine(r, n[1..])
  {
    hide SameLine, ReadPath;
    PathStays(n);
    SameLineTransitive(r, n, ReadPath(n).rest);
    if Cur(n).kind == Identifier || Cur(n).kind == Str {
      NextStays(n);
      SameLineTransitive(r, n, n[1..]);
    }
  }

  lemma {:induction false} BlockLineStays(r: Tokens, b: Block)
    requires !AtEnd(r) && !AtNewline(r) && BlockLine(r, b).Good?
    ensures SameLine(r, BlockLine(r, b).rest) && Cur(BlockLine(r, b).rest).kind != FiKw
  {
    hide SameLine, PostconfLine, SkipToNewline, Registered;
    SkipStays(r);
    NextStays(r);
    if r[0].kind == PostconfKw || r[0].kind == PostconfdKw {
      LineStays(r, false);
      SkipStays(PostconfLine(r, false).rest);
      SameLineTransitive(r, PostconfLine(r, false).rest, SkipToNewline(PostconfLine(r, false).rest));
    }
  }

  /** A line that starts with fi. */
  ghost predicate FiLine(r: Tokens, i: int) {
    0 <= i < |r| && r[i].kind == FiKw && (i == 0 || r[i - 1].kind == Newline)
  }

  ghost predicate FirstFi(r: Tokens, i: int) {
    FiLine(r, i) && forall j :: 0 <= j < i ==> !FiLine(r, j)
  }

  lemma {:induction false} FirstFiLater(r: Tokens, k: nat, i: int)
    requires 1 <= k <= |r| && FirstFi(r[k..], i)
    requires r[0].kind != FiKw && (r[k - 1].kind == Newline || i > 0)
    requires forall j :: 0 <= j < k - 1 ==> r[j].kind != Newline
    requires Cur(r[k..]).kind != FiKw || r[k - 1].kind == Newline
    ensures FirstFi(r, i + k)
  {
    var q := r[k..];
    assert i > 0 ==> q[i - 1] == r[i + k - 1];
    forall j | 0 <= j < i + k ensures !FiLine(r, j) {
      if j >= k {
        assert !FiLine(q, j - k);
        assert q[j - k] == r[j];
        assert j > k ==> q[j - k - 1] == r[j - 1];
      }
    }
  }

  lemma {:induction false} FirstFiAfterNewline(r: Tokens, i: int)
    requires AtNewline(r) && FirstFi(r[1..], i)
    ensures FirstFi(r, i + 1) && r[1..][i..] == r[i + 1..]
  {
    hide FirstFi;
    FirstFiFound(r[1..], i);
    FirstFiLater(r, 1, i);
  }

  lemma {:induction false} FirstFiAfterLine(r: Tokens, q: Tokens, i: int)
    requires SameLine(r, q) && |q| < |r| && r[0].kind != FiKw && Cur(q).kind != FiKw && FirstFi(q, i)
    ensures FirstFi(r, i + |r| - |q|) && q[i..] == r[i + |r| - |q|..]
  {
    hide FirstFi;
    FirstFiFound(q, i);
    FirstFiLater(r, |r| - |q|, i);
  }

  /** An if block ends with the first line that starts with fi, whatever ifs were opened before it. */
  lemma {:induction false} BlockEndsAtFirstFi(r: Tokens, b: Block) returns (i: int)
    requires BlockBody(r, b).Good?
    ensures FirstFi(r, i) && 0 <= i < |r| && BlockBody(r, b).rest == SkipToNewline(r[i..])
    decreases |r|
  {
    hide BlockLine, SkipToNewline, FirstFi, SameLine;
    if AtNewline(r) {
      i := BlockEndsAtFirstFi(r[1..], b);
      FirstFiAfterNewline(r, i);
      i := i + 1;
    } else if Cur(r).kind == FiKw {
      i := 0;
      FiHere(r);
      assert r[0..] == r;
    } else {
      var l := BlockLine(r, b);
      BlockLineStays(r, b);
      i := BlockEndsAtFirstFi(l.rest, l.value);
      FirstFiAfterLine(r, l.rest, i);
      i := i + |r| - |l.rest|;
    }
  }

  lemma {:induction false} FirstFiFound(r: Tokens, i: int)
    requires FirstFi(r, i)
    ensures 0 <= i < |r| && r[i].kind == FiKw
  {}

  lemma {:induction false} FiHere(r: Tokens)
    requires Cur(r).kind == FiKw
    ensures FirstFi(r, 0)
  {}

  /////////// What a section depends on ///////////

  /** The lookups the directive at the cursor names. */
  function NamedAt(r: Tokens): seq<Planner.Lookup> {
    match Cur(r).kind
    case VarKw => NamedVar(r, "VAR")
    case LocalKw => NamedVar(r, "LOCAL")
    case MapfileKw => NamedVar(r, "MAPFILE")
    case MaplocalKw => NamedVar(r, "MAPLOCAL")
    case PostconfKw => NamedByLine(r, true)
    case PostconfdKw => NamedByLine(r, false)
    case _ => []
  }

  function NamedVar(r: Tokens, typ: string): seq<Planner.Lookup>
    requires r != []
  {
    if Cur(r[1..]).kind == Identifier then [Planner.Lookup(typ, r[1].text)] else []
  }

  function NamedByLine(r: Tokens, allow: bool): seq<Planner.Lookup>
    requires !AtEnd(r)
  {
    var l := PostconfLine(r, allow);
    if l.Good? && l.value.lookup.Some? then [l.value.lookup.value] else []
  }

  /** The lookups of all directives of a section, in order. */
  function Uses(r: Tokens, s: Section): seq<Planner.Lookup>
    decreases |r|
  {
    if AtEnd(r) || Cur(r).kind == SectionKw then []
    else if AtNewline(r) then Uses(r[1..], s)
    else
      var d := Directive(r, s);
      NamedAt(r) + if d.Bad? then [] else Uses(d.rest, d.value)
  }

  function RegisterAll(vars: map<string, string>, uses: seq<Planner.Lookup>): map<string, string>
    decreases |uses|
  {
    if uses == [] then vars else RegisterAll(vars[uses[0].key := uses[0].typ], uses[1..])
  }

  lemma {:induction false} RegisterConcat(vars: map<string, string>, a: seq<Planner.Lookup>, b: seq<Planner.Lookup>)
    ensures RegisterAll(vars, a + b) == RegisterAll(RegisterAll(vars, a), b)
    decreases |a|
  {
    if a == [] {
      assert a + b == b;
    } else {
      assert (a + b)[1..] == a[1..] + b;
      RegisterConcat(vars[a[0].key := a[0].typ], a[1..], b);
    }
  }

  lemma {:induction false} RegisterOne(vars: map<string, string>, l: Planner.Lookup)
    ensures RegisterAll(vars, [l]) == vars[l.key := l.typ] && RegisterAll(vars, []) == vars
  {
    assert [l][1..] == [];
  }

  lemma {:induction false} DirectiveRegisters(r: Tokens, s: Section)
    requires Directive(r, s).Good?
    ensures Directive(r, s).value.requiredVars == RegisterAll(s.requiredVars, NamedAt(r))
  {
    hide PostconfLine, SkipToNewline, ReadPath, Value, BlockHeader, BlockBody, Words, RegisterAll, Upper;
    RegisterOne(s.requiredVars, Planner.Lookup("", ""));
    var kind := Cur(r).kind;
    if kind in {VarKw, LocalKw, MapfileKw, MaplocalKw} {
      var typ := match kind case VarKw => "VAR" case LocalKw => "LOCAL" case MapfileKw => "MAPFILE" case _ => "MAPLOCAL";
      RegisterOne(s.requiredVars, Planner.Lookup(typ, r[1].text));
    } else if kind in {PostconfKw, PostconfdKw} {
      var l := PostconfLine(r, kind == PostconfKw).value.lookup;
      if l.Some? { RegisterOne(s.requiredVars, l.value); }
    }
  }

  /** The required variables are exactly what the directives register, in their order. */
  lemma {:induction false} BodyRegisters(r: Tokens, s: Section)
    requires Body(r, s).Good?
    ensures Body(r, s).value.requiredVars == RegisterAll(s.requiredVars, Uses(r, s))
    decreases |r|
  {
    hide Directive, NamedAt, RegisterAll;
    RegisterOne(s.requiredVars, Planner.Lookup("", ""));
    if AtEnd(r) || Cur(r).kind == SectionKw {
    } else if AtNewline(r) {
      BodyRegisters(r[1..], s);
    } else {
      var d := Directive(r, s);
      DirectiveRegisters(r, s);
      BodyRegisters(d.rest, d.value);
      RegisterConcat(s.requiredVars, NamedAt(r), Uses(d.rest, d.value));
    }
  }

  /** The type under which a name is used last. */
  function LastType(uses: seq<Planner.Lookup>, name: string): Option<string> {
    if uses == [] then None
    else if uses[|uses| - 1].key == name then Some(uses[|uses| - 1].typ)
    else LastType(uses[..|uses| - 1], name)
  }

  lemma {:induction false} LastTypeRegistered(vars: map<string, string>, uses: seq<Planner.Lookup>, name: string)
    ensures var all, last := RegisterAll(vars, uses), LastType(uses, name);
            if last.Some? then name in all && all[name] == last.value
            else (name in all <==> name in vars) && (name in vars ==> all[name] == vars[name])
    decreases |uses|
  {
    if uses != [] {
      var init, l := uses[..|uses| - 1], uses[|uses| - 1];
      assert uses == init + [l];
      RegisterConcat(vars, init, [l]);
      RegisterOne(RegisterAll(vars, init), l);
      LastTypeRegistered(vars, init, name);
    }
  }

  lemma {:induction false} LastTypeUsed(uses: seq<Planner.Lookup>, name: string)
    requires LastType(uses, name).Some?
    ensures Planner.Lookup(LastType(uses, name).value, name) in uses
  {
    var init, l := uses[..|uses| - 1], uses[|uses| - 1];
    assert uses == init + [l];
    if l.key != name { LastTypeUsed(init, name); }
  }

  /** No name is used under two lookup types. */
  ghost predicate Consistent(uses: seq<Planner.Lookup>) {
    forall i, j :: 0 <= i < |uses| && 0 <= j < |uses| && uses[i].key == uses[j].key ==> uses[i].typ == uses[j].typ
  }

  lemma {:induction false} ConsistentLast(uses: seq<Planner.Lookup>, l: Planner.Lookup)
    requires Consistent(uses) && l in uses
    ensures LastType(uses, l.key) == Some(l.typ)
  {
    var init, last := uses[..|uses| - 1], uses[|uses| - 1];
    if last.key != l.key {
      assert uses == init + [last];
      ConsistentLast(init, l);
    }
  }

  lemma {:induction false} UsedHasLast(uses: seq<Planner.Lookup>, l: Planner.Lookup)
    requires l in uses
    ensures LastType(uses, l.key).Some?
  {
    if uses[|uses| - 1].key != l.key {
      assert uses == uses[..|uses| - 1] + [uses[|uses| - 1]];
      UsedHasLast(uses[..|uses| - 1], l);
    }
  }

  /** The name in a lookup `<type> <name>`; after FILE a string that starts with '/' continues it. */
  function NameAfter(typ: Token, r: Tokens): string
    requires r != []
  {
    if typ.kind == FileKw && r[0].kind == Identifier && |r| > 1 && IsPath(r[1]) then r[0].text + r[1].text else r[0].text
  }

  /** The lookup a POSTCONF line names: `<keyword> <parameter> <type> <name>`. */
  lemma {:induction false} LineNamesLookup(r: Tokens, allow: bool)
    requires |r| >= 4 && r[0].kind in {PostconfKw, PostconfdKw} && r[1].kind == Identifier
    requires LookupType(r[2], allow).Some? && r[3].kind in {Identifier, Str} && NameAfter(r[2], r[3..]) != ""
    ensures NamedByLine(r, allow) == [Planner.Lookup(LookupType(r[2], allow).value, NameAfter(r[2], r[3..]))]
  {
    hide LookupType, Literal, IsPath;
    TypedIsWord(r[2], allow);
    var v := r[1..][1..];
    assert v[0] == r[2] && v[1..] == r[3..];
    assert |r| > 4 ==> r[3..][1..][0] == r[3..][1] == r[4];
    assert |r| == 4 ==> r[3..][1..] == [];
    EndIsNoPath();
  }

  lemma {:induction false} EndIsNoPath()
    ensures !IsPath(Cur([]))
  {}

  lemma {:induction false} TypedIsWord(t: Token, allow: bool)
    requires LookupType(t, allow).Some?
    ensures t.kind != Newline && !IsEnd(t)
    ensures IsKeyword(t) ==> (LookupType(t, allow).value == "FILE" <==> t.kind == FileKw)
    ensures t.kind == FileKw ==> IsKeyword(t)
  {}

  /////////// Where the sections of a file come from ///////////

  /** The tokens from `j` on start with a header naming `sn`, and the body after it builds `sec` from nothing. */
  ghost predicate SectionAt(r: Tokens, j: nat, sn: string, sec: Section) {
    && j <= |r| && HeaderAt(r, j) && Header(r[j..]).value.0 == sn
    && Body(Header(r[j..]).rest, Header(r[j..]).value.1).Good?
    && Body(Header(r[j..]).rest, Header(r[j..]).value.1).value == sec
  }

  predicate HeaderAt(r: Tokens, j: nat) {
    j <= |r| && Header(r[j..]).Good?
  }

  ghost predicate InFile(r: Tokens, sn: string, sec: Section) {
    exists j :: SectionAt(r, j, sn, sec)
  }

  /** `q` is the end of `r`. */
  ghost predicate Ends(r: Tokens, q: Tokens) {
    |q| <= |r| && r[|r| - |q|..] == q
  }

  lemma {:induction false} SectionAtEnds(r: Tokens, q: Tokens, sn: string)
    requires Ends(r, q) && Cur(q).kind == SectionKw && Header(q).Good? && Header(q).value.0 == sn
    requires Body(Header(q).rest, Header(q).value.1).Good?
    ensures InFile(r, sn, Body(Header(q).rest, Header(q).value.1).value)
  {
    hide Body, Header;
    assert SectionAt(r, |r| - |q|, sn, Body(Header(q).rest, Header(q).value.1).value);
  }

  lemma {:induction false} EndsTransitive(r: Tokens, q: Tokens, p: Tokens)
    requires Ends(r, q) && Ends(q, p)
    ensures Ends(r, p)
  {}

  lemma {:induction false} NewlinesEnd(r: Tokens)
    ensures Ends(r, SkipNewlines(r))
  {
    hide Ends;
    EndsHere(r);
    if AtNewline(r) {
      EndsNext(r, r);
      NewlinesEnd(r[1..]);
      EndsTransitive(r, r[1..], SkipNewlines(r[1..]));
    }
  }

  lemma {:induction false} RecoveryEnds(r: Tokens)
    ensures Ends(r, SkipToSection(r))
  {
    hide Ends;
    EndsHere(r);
    if Cur(r).kind != SectionKw && !AtEnd(r) {
      EndsNext(r, r);
      RecoveryEnds(r[1..]);
      EndsTransitive(r, r[1..], SkipToSection(r[1..]));
    }
  }

  lemma {:induction false} EndsNext(r: Tokens, q: Tokens)
    requires Ends(r, q) && q != []
    ensures Ends(r, q[1..])
  {}

  lemma {:induction false} EndsHere(r: Tokens)
    ensures Ends(r, r)
  {}

  lemma {:induction false} SkippingEnds(r: Tokens, q: Tokens)
    requires Ends(r, q)
    ensures Ends(r, SkipToNewline(q))
  {
    hide SkipToNewline;
    SkipStays(q);
    EndsTransitive(r, q, SkipToNewline(q));
  }

  lemma {:induction false} WordsEnd(r: Tokens, q: Tokens)
    requires Ends(r, q)
    ensures Ends(r, Words(q).rest)
    decreases |q|
  {
    hide Ends;
    if Cur(q).kind == Identifier {
      EndsNext(r, q);
      WordsEnd(r, q[1..]);
    }
  }

  lemma {:induction false} PathEnds(r: Tokens, q: Tokens)
    requires Ends(r, q)
    ensures Ends(r, ReadPath(q).rest)
  {
    hide ReadPath;
    PathStays(q);
    EndsTransitive(r, q, ReadPath(q).rest);
  }

  lemma {:induction false} ValueEnds(r: Tokens, q: Tokens)
    requires Ends(r, q)
    ensures Ends(r, Value(q).rest)
  {
    hide Parts;
    PartsStay(q);
    EndsTransitive(r, q, Parts(q).rest);
  }

  lemma {:induction false} LineEnds(r: Tokens, allow: bool)
    requires !AtEnd(r) && !AtNewline(r)
    ensures Ends(r, PostconfLine(r, allow).rest)
  {
    hide PostconfLine;
    LineStays(r, allow);
  }

  lemma {:induction false} BlockLineEnds(r: Tokens, b: Block)
    requires !AtEnd(r) && !AtNewline(r)
    ensures Ends(r, BlockLine(r, b).rest)
  {
    hide Ends, PostconfLine, SkipToNewline, Registered;
    EndsHere(r);
    EndsNext(r, r);
    SkippingEnds(r, r);
    if r[0].kind == PostconfKw || r[0].kind == PostconfdKw {
      LineEnds(r, false);
      SkippingEnds(r, PostconfLine(r, false).rest);
    }
  }

  lemma {:induction false} BlockEnds(r: Tokens, q: Tokens, b: Block)
    requires Ends(r, q)
    ensures Ends(r, BlockBody(q, b).rest)
    decreases |q|
  {
    hide Ends, BlockLine, SkipToNewline;
    SkippingEnds(r, q);
    if AtNewline(q) {
      EndsNext(r, q);
      BlockEnds(r, q[1..], b);
    } else if Cur(q).kind != FiKw && !AtEnd(q) && Cur(q).kind != SectionKw {
      var l := BlockLine(q, b);
      BlockLineEnds(q, b);
      EndsTransitive(r, q, l.rest);
      if l.Good? { BlockEnds(r, l.rest, l.value); }
    }
  }

  lemma {:induction false} ConditionalEnds(r: Tokens, s: Section)
    requires !AtEnd(r)
    ensures Ends(r, Conditional(r, s).rest)
  {
    hide Ends, BlockBody, SkipToNewline, Upper;
    var h := BlockHeader(r);
    EndsHere(r);
    EndsNext(r, r);
    if Cur(r[1..]).kind == ServiceKw || Cur(r[1..]).kind == VarKw {
      EndsNext(r, r[1..]);
      if h.Good? {
        EndsNext(r, r[1..][1..]);
        SkippingEnds(r, h.rest);
        BlockEnds(r, SkipToNewline(h.rest), h.value);
      }
    }
  }

  lemma {:induction false} RewriteEnds(r: Tokens, s: Section)
    requires !AtEnd(r)
    ensures Ends(r, Rewrite(r, s).rest)
  {
    hide Ends, ReadPath, SkipToNewline;
    EndsHere(r);
    EndsNext(r, r);
    var source := ReadPath(r[1..]);
    PathEnds(r, r[1..]);
    var dest := ReadPath(source.rest);
    PathEnds(r, source.rest);
    if Cur(dest.rest).kind == ModeKw {
      EndsNext(r, dest.rest);
      if Mode(dest.rest).Good? { EndsNext(r, dest.rest[1..]); }
    }
    SkippingEnds(r, Mode(dest.rest).rest);
  }

  lemma {:induction false} FieldEnds(r: Tokens, s: Section, typ: string)
    requires !AtEnd(r)
    ensures Ends(r, RequiredVar(r, s, typ).rest) && Ends(r, Ldap(r, s).rest)
  {
    hide Ends, Value, SkipToNewline;
    EndsHere(r);
    EndsNext(r, r);
    var k := r[1..];
    if Cur(k).kind == Identifier {
      EndsNext(r, k);
      SkippingEnds(r, k[1..]);
      ValueEnds(r, k[1..]);
      SkippingEnds(r, Value(k[1..]).rest);
    }
  }

  lemma {:induction false} DirectiveEnds(r: Tokens, s: Section)
    requires !AtEnd(r) && !AtNewline(r)
    ensures Ends(r, Directive(r, s).rest)
  {
    hide Ends, Value, SkipToNewline, Rewrite, RequiredVar, Ldap, Conditional, Words, PostconfLine, Upper;
    EndsHere(r);
    EndsNext(r, r);
    RewriteEnds(r, s);
    FieldEnds(r, s, "VAR");
    FieldEnds(r, s, "LOCAL");
    FieldEnds(r, s, "MAPFILE");
    FieldEnds(r, s, "MAPLOCAL");
    ConditionalEnds(r, s);
    WordsEnd(r, r[1..]);
    SkippingEnds(r, Words(r[1..]).rest);
    SkippingEnds(r, r[1..]);
    SkippingEnds(r, r);
    LineEnds(r, true);
    LineEnds(r, false);
    SkippingEnds(r, PostconfLine(r, true).rest);
    SkippingEnds(r, PostconfLine(r, false).rest);
  }

  lemma {:induction false} BodyEnds(r: Tokens, q: Tokens, s: Section)
    requires Ends(r, q)
    ensures Ends(r, Body(q, s).rest)
    decreases |q|
  {
    hide Ends, Directive;
    if AtEnd(q) || Cur(q).kind == SectionKw {
    } else if AtNewline(q) {
      EndsNext(r, q);
      BodyEnds(r, q[1..], s);
    } else {
      DirectiveEnds(q, s);
      EndsTransitive(r, q, Directive(q, s).rest);
      if Directive(q, s).Good? { BodyEnds(r, Directive(q, s).rest, Directive(q, s).value); }
    }
  }

  lemma {:induction false} HeaderEnds(r: Tokens, q: Tokens)
    requires Ends(r, q)
    ensures Ends(r, Header(q).rest)
  {
    hide Ends, Words;
    if Cur(q).kind == SectionKw {
      EndsNext(r, q);
      if Cur(q[1..]).kind == Identifier {
        EndsNext(r, q[1..]);
        var d := q[1..][1..];
        if Cur(d).kind == DependsKw {
          EndsNext(r, d);
          WordsEnd(r, d[1..]);
        }
        var w := if Cur(d).kind == DependsKw then Words(d[1..]) else Got({}, d);
        if AtNewline(w.rest) { EndsNext(r, w.rest); }
      }
    }
  }

  /** Every section added by one turn of the section loop follows a header of its name. */
  lemma {:induction false} OneSectionInFile(r: Tokens, q: Tokens, c: Config)
    requires Ends(r, q) && forall sn :: sn in c ==> InFile(r, sn, c[sn])
    ensures Ends(r, OneSection(q, c).rest)
    ensures OneSection(q, c).Good? ==>
              forall sn :: sn in OneSection(q, c).value ==> InFile(r, sn, OneSection(q, c).value[sn])
  {
    hide Body, SkipNewlines, Header, InFile, Ends;
    var p := SkipNewlines(q);
    NewlinesEnd(q);
    EndsTransitive(r, q, p);
    if !AtEnd(p) {
      HeaderEnds(r, p);
      if Header(p).Good? {
        HeaderNames(p);
        var h := Header(p);
        BodyEnds(r, h.rest, h.value.1);
        if Body(h.rest, h.value.1).Good? { SectionAtEnds(r, p, h.value.0); }
      }
    }
  }

  lemma {:induction false} HeaderNames(r: Tokens)
    requires Header(r).Good?
    ensures |r| > 1 && r[0].kind == SectionKw && r[1] == Token(Identifier, Header(r).value.0)
    ensures Header(r).value.1 == NO_SECTION.(depends := Header(r).value.1.depends)
  {}

  /** Every section of a parsed file is the body after a header of its name, also after errors in other sections. */
  lemma {:induction false} SectionsComeFromBodies(r: Tokens, q: Tokens, c: Config, errors: seq<ParseError>)
    requires Ends(r, q) && forall sn :: sn in c ==> InFile(r, sn, c[sn])
    ensures forall sn :: sn in File(q, c, errors).0 ==> InFile(r, sn, File(q, c, errors).0[sn])
    decreases |q|
  {
    hide OneSection, SkipToSection, InFile, Ends;
    if !AtEnd(q) {
      var p := OneSection(q, c);
      OneSectionInFile(r, q, c);
      if p.Good? {
        SectionsComeFromBodies(r, p.rest, p.value, errors);
      } else {
        RecoveryEnds(p.rest);
        EndsTransitive(r, p.rest, SkipToSection(p.rest));
        SectionsComeFromBodies(r, SkipToSection(p.rest), c, errors + [p.error]);
      }
    }
  }
}
